/**
 * Splitting a module request id into its path and its query, as the plugin's
 * `parseRequestQuery` does with `requestQuerySplitRE = /\?(?!.*[/|}])/` and
 * `id.split(requestQuerySplitRE, 2)[1]`, then reading the query's parameter
 * names the way `URLSearchParams` separates them.
 */
module RequestQuery {
  import opened Wrappers

  /** The characters a JavaScript regular expression's `.` does not match. */
  predicate IsLineTerminator(c: char) {
    c == '\n' || c == '\r' || c == '\U{2028}' || c == '\U{2029}'
  }

  /** The class `[/|}]` of the lookahead. */
  predicate IsStopChar(c: char) {
    c == '/' || c == '|' || c == '}'
  }

  /** The lookahead body `.*[/|}]` matches `s` from index `k` on. */
  predicate StopAhead(s: string, k: nat)
    decreases |s| - k
  {
    k < |s| && (IsStopChar(s[k]) || (!IsLineTerminator(s[k]) && StopAhead(s, k + 1)))
  }

  /** The regular expression matches the one character at index `i`: a `?` not followed by a stop character on its line. */
  predicate Qualifies(s: string, i: int) {
    0 <= i < |s| && s[i] == '?' && !StopAhead(s, i + 1)
  }

  /** `q` is the first index at which the split matches. */
  predicate IsFirstQuery(s: string, q: int) {
    Qualifies(s, q) && forall k :: 0 <= k < q ==> !Qualifies(s, k)
  }

  /** `e` ends the second piece of a split limited to two pieces that starts after `q`. */
  predicate IsSearchEnd(s: string, q: int, e: int) {
    0 <= q < e <= |s| && (e == |s| || Qualifies(s, e)) && forall k :: q < k < e ==> !Qualifies(s, k)
  }

  /** The lookahead, stated without recursion: a stop character with no line terminator before it. */
  lemma {:induction false} StopAheadIff(s: string, k: nat)
    ensures StopAhead(s, k) <==>
      exists j :: k <= j < |s| && IsStopChar(s[j]) && forall m :: k <= m < j ==> !IsLineTerminator(s[m])
    decreases |s| - k
  {
    if k < |s| {
      StopAheadIff(s, k + 1);
      if !IsStopChar(s[k]) && !IsLineTerminator(s[k]) && StopAhead(s, k + 1) {
        var j :| k + 1 <= j < |s| && IsStopChar(s[j]) && forall m :: k + 1 <= m < j ==> !IsLineTerminator(s[m]);
        assert forall m :: k <= m < j ==> !IsLineTerminator(s[m]);
      }
      if exists j :: k <= j < |s| && IsStopChar(s[j]) && forall m :: k <= m < j ==> !IsLineTerminator(s[m]) {
        var j :| k <= j < |s| && IsStopChar(s[j]) && forall m :: k <= m < j ==> !IsLineTerminator(s[m]);
        if j > k {
          assert !IsLineTerminator(s[k]);
          assert k + 1 <= j < |s| && IsStopChar(s[j]) && forall m :: k + 1 <= m < j ==> !IsLineTerminator(s[m]);
        }
      }
    }
  }

  /** On a single line a `?` qualifies exactly when no `/`, `|` or `}` comes anywhere after it. */
  lemma SingleLineQualifies(s: string, i: nat)
    requires forall m :: 0 <= m < |s| ==> !IsLineTerminator(s[m])
    requires i < |s|
    ensures Qualifies(s, i) <==> s[i] == '?' && forall j :: i < j < |s| ==> !IsStopChar(s[j])
  {
    StopAheadIff(s, i + 1);
  }

  /** The first index at or after `from` at which the split matches. */
  function FirstQualifying(s: string, from: nat): (r: Option<nat>)
    ensures r.Some? ==> from <= r.value < |s|
    decreases |s| - from
  {
    if from >= |s| then None
    else if Qualifies(s, from) then Some(from)
    else FirstQualifying(s, from + 1)
  }

  /** The search finds the first qualifying index at or after `from`, and finds none only when there is none. */
  lemma {:induction false} FirstQualifyingShape(s: string, from: nat)
    ensures var r := FirstQualifying(s, from);
      && (r.Some? ==> Qualifies(s, r.value))
      && (r.Some? ==> forall k :: from <= k < r.value ==> !Qualifies(s, k))
      && (r.None? ==> forall k :: from <= k < |s| ==> !Qualifies(s, k))
    decreases |s| - from
  {
    if from < |s| && !Qualifies(s, from) {
      FirstQualifyingShape(s, from + 1);
    }
  }

  /** `id.split(requestQuerySplitRE, 2)`: the text before the first match and, when there is one, the text up to the next match or the end. */
  function SplitRequestQuery(id: string): seq<string> {
    match FirstQualifying(id, 0)
    case None => [id]
    case Some(q) =>
      var e := match FirstQualifying(id, q + 1) case None => |id| case Some(e) => e;
      [id[..q], id[q + 1..e]]
  }

  /**
   * The split gives one piece, the whole id, exactly when no `?` qualifies;
   * otherwise two: the text before the first qualifying `?`, and the text
   * from after it up to the next qualifying `?` or the end.
   */
  lemma SplitRequestQueryShape(id: string)
    ensures var parts := SplitRequestQuery(id);
      && 1 <= |parts| <= 2
      && (|parts| == 1 <==> forall k :: 0 <= k < |id| ==> !Qualifies(id, k))
      && (|parts| == 1 ==> parts[0] == id)
      && (|parts| == 2 ==>
            exists q, e ::
              IsFirstQuery(id, q) && IsSearchEnd(id, q, e) && parts[0] == id[..q] && parts[1] == id[q + 1..e])
  {
    FirstQualifyingShape(id, 0);
    match FirstQualifying(id, 0)
    case None =>
    case Some(q) =>
      FirstQualifyingShape(id, q + 1);
      var e := match FirstQualifying(id, q + 1) case None => |id| case Some(e) => e;
      assert IsFirstQuery(id, q) && IsSearchEnd(id, q, e);
  }

  /** One `name=value` pair of a query (percent-decoding is not modelled). */
  datatype Param = Param(name: string, value: string)

  type Query = seq<Param>

  /** The pieces of `s` between the occurrences of `sep`, as `String.prototype.split` with a one-character separator. */
  function SplitOn(s: string, sep: char): (pieces: seq<string>)
    ensures |pieces| >= 1
    ensures forall i :: 0 <= i < |pieces| ==> sep !in pieces[i]
    ensures JoinWith(pieces, sep) == s
  {
    if s == [] then [""]
    else
      var rest := SplitOn(s[1..], sep);
      if s[0] == sep then [""] + rest
      else [[s[0]] + rest[0]] + rest[1..]
  }

  /** The pieces put back together with `sep` between them. */
  function JoinWith(pieces: seq<string>, sep: char): string
    requires |pieces| >= 1
  {
    if |pieces| == 1 then pieces[0] else pieces[0] + [sep] + JoinWith(pieces[1..], sep)
  }

  /** A string without the separator is one piece. */
  lemma {:induction false} SplitOnWithout(s: string, sep: char)
    requires sep !in s
    ensures SplitOn(s, sep) == [s]
  {
    if s != [] { SplitOnWithout(s[1..], sep); }
  }

  /** Splitting undoes joining: the text before the first separator is the first piece. */
  lemma {:induction false} SplitOnFirst(a: string, sep: char, b: string)
    requires sep !in a
    ensures SplitOn(a + [sep] + b, sep) == [a] + SplitOn(b, sep)
  {
    if a == [] {
      assert a + [sep] + b == [sep] + b;
      assert ([sep] + b)[1..] == b;
    } else {
      SplitOnFirst(a[1..], sep, b);
      assert (a + [sep] + b)[1..] == a[1..] + [sep] + b;
      assert [a[0]] + a[1..] == a;
    }
  }

  /** The name of one `&`-separated component: the text before its first `=`. */
  function NameOf(c: string): (n: string)
    ensures n <= c && '=' !in n
    ensures n == c || c[|n|] == '='
  {
    if c == [] || c[0] == '=' then [] else [c[0]] + NameOf(c[1..])
  }

  /** The component split once at its first `=`. */
  function ParseParam(c: string): (p: Param)
    ensures p.name == NameOf(c)
    ensures p.name == c ==> p.value == ""
    ensures p.name != c ==> c == p.name + "=" + p.value
  {
    var n := NameOf(c);
    if n == c then Param(c, "") else Param(n, c[|n| + 1..])
  }

  /** A name without `=` and any value come back from the component `name=value`. */
  lemma {:induction false} ParseParamRoundTrip(n: string, v: string)
    requires '=' !in n
    ensures ParseParam(n + "=" + v) == Param(n, v)
  {
    NameOfPrefix(n, v);
  }

  /** The name of `n=v` is `n` when `n` has no `=`. */
  lemma {:induction false} NameOfPrefix(n: string, v: string)
    requires '=' !in n
    ensures NameOf(n + "=" + v) == n
  {
    if n != [] {
      NameOfPrefix(n[1..], v);
      assert (n + "=" + v)[1..] == n[1..] + "=" + v;
    }
  }

  /** A component without `=` is a name with an empty value. */
  lemma {:induction false} ParseParamNameOnly(c: string)
    requires '=' !in c
    ensures ParseParam(c) == Param(c, "")
  {
    if c != [] {
      ParseParamNameOnly(c[1..]);
    }
  }

  /** The parameters of a list of components; empty components are skipped. */
  function ParamsOf(pieces: seq<string>): Query {
    if pieces == [] then []
    else (if pieces[0] == "" then [] else [ParseParam(pieces[0])]) + ParamsOf(pieces[1..])
  }

  /** `new URLSearchParams(search)` read as a list of parameters, in order. */
  function ParseSearchParams(search: string): Query {
    ParamsOf(SplitOn(search, '&'))
  }

  /** `key in query` for the object `Object.fromEntries` builds from the parameters. */
  predicate HasKey(q: Query, key: string) {
    exists i :: 0 <= i < |q| && q[i].name == key
  }

  /** Two lists of parameters together have a key exactly when one of them has it. */
  lemma HasKeyAppend(a: Query, b: Query, key: string)
    ensures HasKey(a + b, key) <==> HasKey(a, key) || HasKey(b, key)
  {
    if HasKey(a + b, key) {
      var i :| 0 <= i < |a + b| && (a + b)[i].name == key;
      if i < |a| {
        assert a[i] == (a + b)[i];
      } else {
        assert b[i - |a|] == (a + b)[i];
      }
    }
    if HasKey(a, key) {
      var i :| 0 <= i < |a| && a[i].name == key;
      assert (a + b)[i] == a[i];
    }
    if HasKey(b, key) {
      var i :| 0 <= i < |b| && b[i].name == key;
      assert (a + b)[|a| + i] == b[i];
    }
  }

  /** A query has a key exactly when some non-empty component is named by it. */
  lemma {:induction false} ParamsOfHasKey(pieces: seq<string>, key: string)
    ensures HasKey(ParamsOf(pieces), key) <==>
      exists i :: 0 <= i < |pieces| && pieces[i] != "" && NameOf(pieces[i]) == key
  {
    if pieces != [] {
      var rest := pieces[1..];
      var head := if pieces[0] == "" then [] else [ParseParam(pieces[0])];
      ParamsOfHasKey(rest, key);
      HasKeyAppend(head, ParamsOf(rest), key);
      assert HasKey(head, key) <==> pieces[0] != "" && NameOf(pieces[0]) == key by {
        if pieces[0] != "" {
          assert head[0].name == NameOf(pieces[0]);
        }
      }
      if exists i :: 0 <= i < |pieces| && pieces[i] != "" && NameOf(pieces[i]) == key {
        var i :| 0 <= i < |pieces| && pieces[i] != "" && NameOf(pieces[i]) == key;
        if i > 0 {
          assert rest[i - 1] == pieces[i];
        }
      }
      if exists j :: 0 <= j < |rest| && rest[j] != "" && NameOf(rest[j]) == key {
        var j :| 0 <= j < |rest| && rest[j] != "" && NameOf(rest[j]) == key;
        assert pieces[j + 1] == rest[j];
      }
    }
  }

  /** `parseRequestQuery(id)`: the parameters of the split's second piece, or null when that piece is missing or empty. */
  function ParseRequestQuery(id: string): Option<Query> {
    var parts := SplitRequestQuery(id);
    if |parts| == 2 && parts[1] != "" then Some(ParseSearchParams(parts[1])) else None
  }

  /**
   * `parseRequestQuery(id)` is null exactly when no `?` qualifies or the text
   * after the first qualifying one is empty; otherwise it holds the
   * parameters of that text, up to the next qualifying `?` or the end.
   */
  lemma ParseRequestQueryShape(id: string)
    ensures var r := ParseRequestQuery(id);
      && (r.None? <==>
            || (forall k :: 0 <= k < |id| ==> !Qualifies(id, k))
            || (exists q :: IsFirstQuery(id, q) && IsSearchEnd(id, q, q + 1)))
      && (r.Some? ==>
            exists q, e ::
              IsFirstQuery(id, q) && IsSearchEnd(id, q, e) && q + 1 < e && r.value == ParseSearchParams(id[q + 1..e]))
  {
    SplitRequestQueryShape(id);
  }

  /** `query && 'prefetch' in query`: the id asks to be prefetched. */
  predicate HasPrefetchQuery(id: string) {
    var q := ParseRequestQuery(id);
    q.Some? && HasKey(q.value, "prefetch")
  }

  /** A search text has a `prefetch` key exactly when one of its `&`-components is named `prefetch`. */
  lemma SearchHasPrefetch(search: string)
    ensures (search != "" && HasKey(ParseSearchParams(search), "prefetch")) <==>
      exists c :: c in SplitOn(search, '&') && NameOf(c) == "prefetch"
  {
    var pieces := SplitOn(search, '&');
    ParamsOfHasKey(pieces, "prefetch");
    if search == "" {
      assert pieces == [""];
    }
    if exists c :: c in pieces && NameOf(c) == "prefetch" {
      var c :| c in pieces && NameOf(c) == "prefetch";
      var i :| 0 <= i < |pieces| && pieces[i] == c;
      assert pieces[i] != "";
    }
    if HasKey(ParamsOf(pieces), "prefetch") {
      var i :| 0 <= i < |pieces| && pieces[i] != "" && NameOf(pieces[i]) == "prefetch";
      assert pieces[i] in pieces;
    }
  }

  /** The id carries a `prefetch` key exactly when one `&`-component of its search text is named `prefetch`. */
  lemma PrefetchQueryIff(id: string)
    ensures HasPrefetchQuery(id) <==>
      exists q, e ::
        IsFirstQuery(id, q) && IsSearchEnd(id, q, e) &&
        exists c :: c in SplitOn(id[q + 1..e], '&') && NameOf(c) == "prefetch"
  {
    var parts := SplitRequestQuery(id);
    SplitRequestQueryShape(id);
    if |parts| == 2 {
      var q, e :| IsFirstQuery(id, q) && IsSearchEnd(id, q, e) && parts[0] == id[..q] && parts[1] == id[q + 1..e];
      SearchHasPrefetch(parts[1]);
      if exists q', e' :: IsFirstQuery(id, q') && IsSearchEnd(id, q', e') &&
                          exists c :: c in SplitOn(id[q' + 1..e'], '&') && NameOf(c) == "prefetch" {
        var q', e' :| IsFirstQuery(id, q') && IsSearchEnd(id, q', e') &&
                      exists c :: c in SplitOn(id[q' + 1..e'], '&') && NameOf(c) == "prefetch";
        FirstQueryUnique(id, q);
        SearchEndUnique(id, q, e);
        assert q' == q && e' == e;
      }
    }
  }

  /** The first match is the only index with that property. */
  lemma FirstQueryUnique(id: string, q: int)
    requires IsFirstQuery(id, q)
    ensures forall q' :: IsFirstQuery(id, q') ==> q' == q
  {
  }

  /** The end of the search text is determined by where it starts. */
  lemma SearchEndUnique(id: string, q: int, e: int)
    requires IsSearchEnd(id, q, e)
    ensures forall e' :: IsSearchEnd(id, q, e') ==> e' == e
  {
  }

  /**
   * A `?` right behind the first match is itself a match, so it ends the
   * search text there: a non-empty search text never starts with `?`, and
   * the leading `?` that `URLSearchParams` would drop never reaches it.
   */
  lemma {:induction false} SearchNeverStartsWithQuestionMark(id: string, q: nat, e: nat)
    requires IsFirstQuery(id, q) && IsSearchEnd(id, q, e) && q + 1 < e
    ensures id[q + 1] != '?'
  {
    if id[q + 1] == '?' {
      assert !StopAhead(id, q + 1);
      assert !StopAhead(id, q + 2);
      assert Qualifies(id, q + 1);
      assert false;
    }
  }

  /** A `?` right behind the first match ends the search text at once: the search text is empty. */
  lemma AdjacentQuestionMarkEndsSearch(id: string, q: nat)
    requires IsFirstQuery(id, q) && q + 1 < |id| && id[q + 1] == '?'
    ensures IsSearchEnd(id, q, q + 1)
  {
    assert !StopAhead(id, q + 1);
    assert !StopAhead(id, q + 2);
  }

  /** When the id holds no line terminator, the search text holds no `?` at all. */
  lemma SingleLineSearchHasNoQuestionMark(id: string, q: nat, e: nat)
    requires forall m :: 0 <= m < |id| ==> !IsLineTerminator(id[m])
    requires IsFirstQuery(id, q) && IsSearchEnd(id, q, e)
    ensures '?' !in id[q + 1..e]
  {
    SingleLineQualifies(id, q);
    forall k | q < k < e
      ensures id[k] != '?'
    {
      SingleLineQualifies(id, k);
      assert !Qualifies(id, k);
    }
  }

  /** The id `b.js?prefetch&foo=bar` splits at its only `?`. */
  lemma ExampleSplitPrefetchAndFoo()
    ensures SplitRequestQuery("b.js?prefetch&foo=bar") == ["b.js", "prefetch&foo=bar"]
  {
    var path, search := "b.js", "prefetch&foo=bar";
    var id := path + "?" + search;
    assert id == "b.js?prefetch&foo=bar";
    assert forall k :: 0 <= k < 4 ==> !Qualifies(id, k);
    assert forall j :: 5 <= j < |id| ==> !IsStopChar(id[j]);
    StopAheadIff(id, 5);
    assert IsFirstQuery(id, 4);
    assert forall k :: 5 <= k < |id| ==> id[k] != '?';
    FirstQualifyingShape(id, 0);
    FirstQualifyingShape(id, 5);
    assert FirstQualifying(id, 0) == Some(4);
    assert FirstQualifying(id, 5) == None;
    assert id[..4] == path;
    assert id[5..|id|] == search;
  }

  /** A search text `flag&name=value` holds a bare flag followed by one named value. */
  lemma FlagThenParam(flag: string, name: string, value: string)
    requires flag != "" && '&' !in flag && '=' !in flag
    requires '&' !in name && '=' !in name && '&' !in value
    ensures ParseSearchParams(flag + "&" + name + "=" + value) == [Param(flag, ""), Param(name, value)]
  {
    var second := name + "=" + value;
    assert '&' !in second by {
      assert forall i :: 0 <= i < |second| ==> second[i] == (if i < |name| then name[i] else if i == |name| then '=' else value[i - |name| - 1]);
    }
    assert flag + "&" + name + "=" + value == flag + ['&'] + second;
    SplitOnWithout(second, '&');
    SplitOnFirst(flag, '&', second);
    ParseParamNameOnly(flag);
    ParseParamRoundTrip(name, value);
    var pieces := SplitOn(flag + ['&'] + second, '&');
    assert pieces[1..] == [second];
    assert ParamsOf(pieces[1..]) == [Param(name, value)];
  }

  /** The search text `prefetch&foo=bar` holds the parameters `prefetch` and `foo=bar`. */
  lemma ExampleSearchPrefetchAndFoo(search: string)
    requires search == "prefetch&foo=bar"
    ensures ParseSearchParams(search) == [Param("prefetch", ""), Param("foo", "bar")]
  {
    FlagThenParam("prefetch", "foo", "bar");
    assert search == "prefetch" + "&" + "foo" + "=" + "bar";
  }

  /** The id `b.js?prefetch&foo=bar` parses to the keys `prefetch` and `foo`. */
  lemma ExamplePrefetchAndFoo()
    ensures ParseRequestQuery("b.js?prefetch&foo=bar") == Some([Param("prefetch", ""), Param("foo", "bar")])
    ensures HasPrefetchQuery("b.js?prefetch&foo=bar")
  {
    ExampleSearchPrefetchAndFoo("prefetch&foo=bar");
    ExampleSplitPrefetchAndFoo();
    var q := [Param("prefetch", ""), Param("foo", "bar")];
    assert q[0].name == "prefetch";
  }

  /** In `x?a/b` the only `?` is followed by `/`, so there is no query. */
  lemma ExampleSlashAfterQuery()
    ensures ParseRequestQuery("x?a/b") == None
  {
    var id := "x?a/b";
    assert StopAhead(id, 2);
    assert forall k :: 0 <= k < |id| ==> !Qualifies(id, k);
  }
}
