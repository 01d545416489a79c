/** The request paths and query strings that `get_cc_indicators` and
    `get_collections` build (src/cctaxiiclient.rs), together with how the
    URL is read on the way to the server: the HTTP client sends as query
    only the text between the first `?` and a `#` (section 3 of RFC 3986),
    and the server cuts that text into `&`-separated parameters. */
module Query {
  import opened Wrappers
  import Decimal

  /** The page size sent when the caller gives none. */
  const DefaultLimit: nat := 1000

  /** `"{root}/collections/"`. */
  function CollectionsPath(root: string): string {
    root + "/collections/"
  }

  /** The objects endpoint of one collection, without its query. */
  function ObjectsPath(root: string, collection: string): string {
    root + "/collections/" + collection + "/objects/"
  }

  function AddedAfterQuery(addedAfter: Option<string>): string {
    match addedAfter
    case None => ""
    case Some(t) => "&added_after=" + t
  }

  /** One `match[k]=v` filter, without its separator. */
  function MatchParameter(k: string, v: string): string {
    "match[" + k + "]=" + v
  }

  /** The left fold of the source: `format!("{acc}&match[{k}]={v}")` for
      each pair, in the order the map is iterated. */
  function FoldMatches(acc: string, pairs: seq<(string, string)>): (r: string)
    ensures |acc| + 9 * |pairs| <= |r| && r[..|acc|] == acc
    decreases |pairs|
  {
    if |pairs| == 0 then acc
    else FoldMatches(acc + "&match[" + pairs[0].0 + "]=" + pairs[0].1, pairs[1..])
  }

  /** The filter part of the query; empty when there is no map. */
  function MatchQuery(matches: Option<seq<(string, string)>>): string {
    match matches
    case None => ""
    case Some(pairs) => FoldMatches("", pairs)
  }

  /** The query string of the first page, after the `?`: the page size,
      then the timestamp and the filters, each introduced by `&`. */
  function QueryString(limit: Option<nat>, addedAfter: Option<string>, matches: Option<seq<(string, string)>>): (r: string)
    ensures r == LimitParameter(limit) + AmpJoin(AddedAfterParameters(addedAfter)) + AmpJoin(MatchQueryParameters(matches))
  {
    AddedAfterIsJoin(addedAfter);
    MatchQueryIsJoin(matches);
    "limit=" + Decimal.NatToString(limit.GetOr(DefaultLimit)) + AddedAfterQuery(addedAfter) + MatchQuery(matches)
  }

  /** The URL of the first page: the same text as the source's
      `"{root}/collections/{collection}/objects/?limit={limit}"` followed by
      the timestamp and filter parts. */
  function FirstPageUrl(root: string, collection: string, limit: Option<nat>, addedAfter: Option<string>,
                        matches: Option<seq<(string, string)>>): (r: string)
    ensures var path := ObjectsPath(root, collection);
            && |r| == |path| + 1 + |QueryString(limit, addedAfter, matches)|
            && r[..|root|] == root && r[|root|..|path|] == "/collections/" + collection + "/objects/"
            && r[|path|] == '?' && r[|path| + 1..] == QueryString(limit, addedAfter, matches)
  {
    ObjectsPath(root, collection) + "?" + QueryString(limit, addedAfter, matches)
  }

  /** What the loop appends to the URL for each cursor it is given. */
  function NextParam(cursor: string): string {
    "&next=" + cursor
  }

  /** The text appended by a run of cursors, oldest first. */
  function NextQuery(cursors: seq<string>): string {
    AmpJoin(NextParameters(cursors))
  }

  // ----- The reading side: a query string as a list of parameters -----

  /** Each parameter preceded by an `&`. */
  function AmpJoin(params: seq<string>): string {
    if |params| == 0 then "" else "&" + params[0] + AmpJoin(params[1..])
  }

  /** A query string cut at every `&`. */
  function Fields(s: string): (r: seq<string>)
    ensures |r| >= 1
  {
    if |s| == 0 then [""]
    else
      var rest := Fields(s[1..]);
      if s[0] == '&' then [""] + rest else [[s[0]] + rest[0]] + rest[1..]
  }

  predicate NoAmp(s: string) {
    '&' !in s
  }

  predicate AllNoAmp(params: seq<string>) {
    forall i :: 0 <= i < |params| ==> NoAmp(params[i])
  }

  function MatchParameters(pairs: seq<(string, string)>): (r: seq<string>)
    ensures |r| == |pairs|
    ensures forall i :: 0 <= i < |pairs| ==> r[i] == MatchParameter(pairs[i].0, pairs[i].1)
  {
    if |pairs| == 0 then [] else [MatchParameter(pairs[0].0, pairs[0].1)] + MatchParameters(pairs[1..])
  }

  function NextParameters(cursors: seq<string>): (r: seq<string>)
    ensures |r| == |cursors|
    ensures forall i :: 0 <= i < |cursors| ==> r[i] == "next=" + cursors[i]
  {
    if |cursors| == 0 then [] else ["next=" + cursors[0]] + NextParameters(cursors[1..])
  }

  function LimitParameter(limit: Option<nat>): string {
    "limit=" + Decimal.NatToString(limit.GetOr(DefaultLimit))
  }

  function AddedAfterParameters(addedAfter: Option<string>): seq<string> {
    match addedAfter
    case None => []
    case Some(t) => ["added_after=" + t]
  }

  function MatchQueryParameters(matches: Option<seq<(string, string)>>): seq<string> {
    match matches
    case None => []
    case Some(pairs) => MatchParameters(pairs)
  }

  /** The parameters the first page is meant to carry, in order: the page
      size, the optional timestamp, then one filter per pair. */
  function IntendedParameters(limit: Option<nat>, addedAfter: Option<string>,
                              matches: Option<seq<(string, string)>>): seq<string>
  {
    [LimitParameter(limit)] + AddedAfterParameters(addedAfter) + MatchQueryParameters(matches)
  }

  /** Every value interpolated into the query is free of `&`. */
  predicate Unambiguous(addedAfter: Option<string>, matches: Option<seq<(string, string)>>) {
    && (addedAfter.Some? ==> NoAmp(addedAfter.value))
    && (matches.Some? ==> forall i :: 0 <= i < |matches.value| ==> NoAmp(matches.value[i].0) && NoAmp(matches.value[i].1))
  }

  /** No interpolated value contains `#`, which would start a fragment. */
  predicate FragmentFree(addedAfter: Option<string>, matches: Option<seq<(string, string)>>) {
    && (addedAfter.Some? ==> '#' !in addedAfter.value)
    && (matches.Some? ==> forall i :: 0 <= i < |matches.value| ==> '#' !in matches.value[i].0 && '#' !in matches.value[i].1)
  }

  /** A path segment that neither starts the query nor the fragment. */
  predicate PathSafe(s: string) {
    '?' !in s && '#' !in s
  }

  /** The text up to the first `#`. */
  function BeforeHash(s: string): (r: string)
    ensures '#' !in r && |r| <= |s| && r == s[..|r|]
  {
    if |s| == 0 || s[0] == '#' then "" else [s[0]] + BeforeHash(s[1..])
  }

  /** The query an HTTP client sends for `url`: the text after the first
      `?` and before the fragment; empty when a `#` comes first or there is
      no `?`. */
  function SentQuery(url: string): string {
    if |url| == 0 || url[0] == '#' then ""
    else if url[0] == '?' then BeforeHash(url[1..])
    else SentQuery(url[1..])
  }

  // ----- Lemmas -----

  lemma {:induction false} FieldsOfPlain(s: string)
    requires NoAmp(s)
    ensures Fields(s) == [s]
    decreases |s|
  {
    if |s| > 0 {
      FieldsOfPlain(s[1..]);
      assert [s[0]] + s[1..] == s;
    }
  }

  /** Cutting `a & b` gives the parameters of `a` followed by those of `b`. */
  lemma {:induction false} FieldsOfJoin(a: string, b: string)
    ensures Fields(a + "&" + b) == Fields(a) + Fields(b)
    decreases |a|
  {
    if |a| == 0 {
      assert a + "&" + b == "&" + b;
      assert ("&" + b)[1..] == b;
    } else {
      var s := a + "&" + b;
      assert s[0] == a[0];
      assert s[1..] == a[1..] + "&" + b;
      FieldsOfJoin(a[1..], b);
    }
  }

  lemma {:induction false} AmpJoinSnoc(params: seq<string>, p: string)
    ensures AmpJoin(params + [p]) == AmpJoin(params) + "&" + p
    decreases |params|
  {
    if |params| == 0 {
      assert params + [p] == [p];
    } else {
      assert (params + [p])[1..] == params[1..] + [p];
      AmpJoinSnoc(params[1..], p);
    }
  }

  /** Appending `&`-prefixed parameters that contain no `&` adds exactly
      those parameters, in order. */
  lemma {:induction false} FieldsOfAmpJoin(q: string, params: seq<string>)
    requires AllNoAmp(params)
    ensures Fields(q + AmpJoin(params)) == Fields(q) + params
    decreases |params|
  {
    if |params| == 0 {
      assert q + AmpJoin(params) == q;
    } else {
      var init := params[..|params| - 1];
      var last := params[|params| - 1];
      assert params == init + [last];
      AmpJoinSnoc(init, last);
      assert q + AmpJoin(params) == (q + AmpJoin(init)) + "&" + last;
      FieldsOfJoin(q + AmpJoin(init), last);
      FieldsOfPlain(last);
      FieldsOfAmpJoin(q, init);
    }
  }

  /** The source's left fold appends exactly one `&match[k]=v` per pair, in
      iteration order, after whatever was accumulated. */
  lemma {:induction false} FoldMatchesAppends(acc: string, pairs: seq<(string, string)>)
    ensures FoldMatches(acc, pairs) == acc + AmpJoin(MatchParameters(pairs))
    decreases |pairs|
  {
    if |pairs| > 0 {
      var p := MatchParameter(pairs[0].0, pairs[0].1);
      assert acc + "&match[" + pairs[0].0 + "]=" + pairs[0].1 == acc + "&" + p;
      FoldMatchesAppends(acc + "&" + p, pairs[1..]);
      assert MatchParameters(pairs)[1..] == MatchParameters(pairs[1..]);
    }
  }

  lemma ConcatAssoc(a: string, b: string, c: string, d: string)
    ensures (a + b + c) + d == a + b + (c + d)
  {
  }

  lemma NoAmpConcat(a: string, b: string)
    requires NoAmp(a) && NoAmp(b)
    ensures NoAmp(a + b)
  {
    assert forall c :: c in a + b ==> c in a || c in b;
  }

  lemma DigitsNoAmp(s: string)
    requires Decimal.AllDigits(s)
    ensures NoAmp(s)
  {
    assert forall i :: 0 <= i < |s| ==> s[i] != '&';
  }

  lemma {:induction false} NextParametersNoAmp(cursors: seq<string>)
    requires forall i :: 0 <= i < |cursors| ==> NoAmp(cursors[i])
    ensures AllNoAmp(NextParameters(cursors))
  {
    forall i | 0 <= i < |cursors|
      ensures NoAmp(NextParameters(cursors)[i])
    {
      NoAmpConcat("next=", cursors[i]);
    }
  }

  lemma AddedAfterIsJoin(addedAfter: Option<string>)
    ensures AddedAfterQuery(addedAfter) == AmpJoin(AddedAfterParameters(addedAfter))
  {
    if addedAfter.Some? {
      var p := "added_after=" + addedAfter.value;
      assert AmpJoin([p]) == "&" + p + AmpJoin([]);
      assert "&added_after=" + addedAfter.value == "&" + p;
    }
  }

  lemma AddedAfterNoAmp(addedAfter: Option<string>)
    requires addedAfter.Some? ==> NoAmp(addedAfter.value)
    ensures AllNoAmp(AddedAfterParameters(addedAfter))
  {
    if addedAfter.Some? {
      assert NoAmp("added_after=");
      NoAmpConcat("added_after=", addedAfter.value);
    }
  }

  lemma MatchParameterNoAmp(k: string, v: string)
    requires NoAmp(k) && NoAmp(v)
    ensures NoAmp(MatchParameter(k, v))
  {
    assert NoAmp("match[") && NoAmp("]=");
    NoAmpConcat("match[", k);
    NoAmpConcat("match[" + k, "]=");
    NoAmpConcat("match[" + k + "]=", v);
  }

  lemma MatchParametersNoAmp(pairs: seq<(string, string)>)
    requires forall i :: 0 <= i < |pairs| ==> NoAmp(pairs[i].0) && NoAmp(pairs[i].1)
    ensures AllNoAmp(MatchParameters(pairs))
  {
    forall i | 0 <= i < |pairs|
      ensures NoAmp(MatchParameters(pairs)[i])
    {
      MatchParameterNoAmp(pairs[i].0, pairs[i].1);
    }
  }

  lemma LimitParameterNoAmp(limit: Option<nat>)
    ensures NoAmp(LimitParameter(limit))
  {
    var n := Decimal.NatToString(limit.GetOr(DefaultLimit));
    DigitsNoAmp(n);
    assert NoAmp("limit=");
    NoAmpConcat("limit=", n);
  }

  lemma MatchQueryIsJoin(matches: Option<seq<(string, string)>>)
    ensures MatchQuery(matches) == AmpJoin(MatchQueryParameters(matches))
  {
    if matches.Some? {
      FoldMatchesAppends("", matches.value);
    }
  }

  /** When no interpolated value contains `&`, the query text cut at `&`
      gives exactly the intended parameters, in the source's order: the page
      size (1000 by default), the timestamp if given, the filters in
      iteration order, then one `next` per cursor appended so far. */
  lemma QueryParameters(limit: Option<nat>, addedAfter: Option<string>,
                        matches: Option<seq<(string, string)>>, cursors: seq<string>)
    requires Unambiguous(addedAfter, matches)
    requires forall i :: 0 <= i < |cursors| ==> NoAmp(cursors[i])
    ensures Fields(QueryString(limit, addedAfter, matches) + NextQuery(cursors))
         == IntendedParameters(limit, addedAfter, matches) + NextParameters(cursors)
  {
    var head := LimitParameter(limit);
    var aparams := AddedAfterParameters(addedAfter);
    var mparams := MatchQueryParameters(matches);
    var nparams := NextParameters(cursors);
    AddedAfterNoAmp(addedAfter);
    LimitParameterNoAmp(limit);
    NextParametersNoAmp(cursors);
    if matches.Some? {
      MatchParametersNoAmp(matches.value);
    }
    var q1 := head + AmpJoin(aparams);
    var q2 := q1 + AmpJoin(mparams);
    assert Fields(q1) == [head] + aparams by {
      FieldsOfPlain(head);
      FieldsOfAmpJoin(head, aparams);
    }
    assert Fields(q2) == [head] + aparams + mparams by {
      FieldsOfAmpJoin(q1, mparams);
    }
    FieldsOfAmpJoin(q2, nparams);
  }

  lemma {:induction false} BeforeHashCut(a: string, b: string)
    requires '#' !in a
    ensures BeforeHash(a + b) == (if |b| == 0 || b[0] == '#' then a else a + BeforeHash(b))
    decreases |a|
  {
    if |a| > 0 {
      assert (a + b)[1..] == a[1..] + b;
      BeforeHashCut(a[1..], b);
      assert [a[0]] + a[1..] == a;
    } else {
      assert a + b == b;
    }
  }

  /** With a path that holds no `?` and no `#`, the client sends the text
      after the `?` up to the first `#`. */
  lemma {:induction false} SentQueryCut(path: string, a: string, b: string)
    requires PathSafe(path) && '#' !in a && (|b| == 0 || b[0] == '#')
    ensures SentQuery(path + "?" + a + b) == a
    decreases |path|
  {
    if |path| == 0 {
      assert path + "?" + a + b == "?" + (a + b);
      assert ("?" + (a + b))[1..] == a + b;
      BeforeHashCut(a, b);
    } else {
      assert (path + "?" + a + b)[1..] == path[1..] + "?" + a + b;
      assert path[0] in path;
      SentQueryCut(path[1..], a, b);
    }
  }

  /** With a path that holds no `?` and no `#`, and a query without `#`,
      the client sends exactly that query. */
  lemma SentQueryOf(path: string, q: string)
    requires PathSafe(path) && '#' !in q
    ensures SentQuery(path + "?" + q) == q
  {
    SentQueryCut(path, q, "");
    assert path + "?" + q + "" == path + "?" + q;
  }

  lemma LacksConcat(a: string, b: string, ch: char)
    requires ch !in a && ch !in b
    ensures ch !in a + b
  {
    assert forall c :: c in a + b ==> c in a || c in b;
  }

  lemma {:induction false} JoinLacks(params: seq<string>, ch: char)
    requires ch != '&' && forall i :: 0 <= i < |params| ==> ch !in params[i]
    ensures ch !in AmpJoin(params)
    decreases |params|
  {
    if |params| > 0 {
      JoinLacks(params[1..], ch);
      LacksConcat("&", params[0], ch);
      LacksConcat("&" + params[0], AmpJoin(params[1..]), ch);
    }
  }

  lemma LimitParameterNoHash(limit: Option<nat>)
    ensures '#' !in LimitParameter(limit)
  {
    var n := Decimal.NatToString(limit.GetOr(DefaultLimit));
    assert forall i :: 0 <= i < |n| ==> n[i] != '#';
    assert '#' !in "limit=";
    LacksConcat("limit=", n, '#');
  }

  lemma MatchParameterNoHash(k: string, v: string)
    requires '#' !in k && '#' !in v
    ensures '#' !in MatchParameter(k, v)
  {
    assert '#' !in "match[" && '#' !in "]=";
    LacksConcat("match[", k, '#');
    LacksConcat("match[" + k, "]=", '#');
    LacksConcat("match[" + k + "]=", v, '#');
  }

  lemma MatchParametersNoHash(pairs: seq<(string, string)>)
    requires forall i :: 0 <= i < |pairs| ==> '#' !in pairs[i].0 && '#' !in pairs[i].1
    ensures '#' !in AmpJoin(MatchParameters(pairs))
  {
    var ps := MatchParameters(pairs);
    forall i | 0 <= i < |pairs|
      ensures '#' !in ps[i]
    {
      MatchParameterNoHash(pairs[i].0, pairs[i].1);
    }
    JoinLacks(ps, '#');
  }

  lemma NextParametersNoHash(cursors: seq<string>)
    requires forall i :: 0 <= i < |cursors| ==> '#' !in cursors[i]
    ensures '#' !in NextQuery(cursors)
  {
    var ps := NextParameters(cursors);
    forall i | 0 <= i < |cursors|
      ensures '#' !in ps[i]
    {
      assert '#' !in "next=";
      LacksConcat("next=", cursors[i], '#');
    }
    JoinLacks(ps, '#');
  }

  /** The query text a page request carries holds no `#` when no value does. */
  lemma QueryNoHash(limit: Option<nat>, addedAfter: Option<string>,
                    matches: Option<seq<(string, string)>>, cursors: seq<string>)
    requires FragmentFree(addedAfter, matches)
    requires forall i :: 0 <= i < |cursors| ==> '#' !in cursors[i]
    ensures '#' !in QueryString(limit, addedAfter, matches) + NextQuery(cursors)
  {
    var head := LimitParameter(limit);
    var ajoin := AmpJoin(AddedAfterParameters(addedAfter));
    var mjoin := AmpJoin(MatchQueryParameters(matches));
    LimitParameterNoHash(limit);
    if addedAfter.Some? {
      assert '#' !in "added_after=";
      LacksConcat("added_after=", addedAfter.value, '#');
    }
    JoinLacks(AddedAfterParameters(addedAfter), '#');
    if matches.Some? {
      MatchParametersNoHash(matches.value);
    }
    NextParametersNoHash(cursors);
    LacksConcat(head, ajoin, '#');
    LacksConcat(head + ajoin, mjoin, '#');
    LacksConcat(head + ajoin + mjoin, NextQuery(cursors), '#');
  }

  /** The objects path holds no `?` and no `#` when the root and the
      collection hold none. */
  lemma ObjectsPathSafe(root: string, collection: string)
    requires PathSafe(root) && PathSafe(collection)
    ensures PathSafe(ObjectsPath(root, collection))
  {
    assert PathSafe("/collections/") && PathSafe("/objects/");
    LacksConcat(root, "/collections/", '?');
    LacksConcat(root, "/collections/", '#');
    LacksConcat(root + "/collections/", collection, '?');
    LacksConcat(root + "/collections/", collection, '#');
    LacksConcat(root + "/collections/" + collection, "/objects/", '?');
    LacksConcat(root + "/collections/" + collection, "/objects/", '#');
  }

  /** Values are interpolated without escaping: a filter value `v1&v2`
      smuggles `v2` in as a parameter of its own, so one pair yields two
      parameters (with `v2 = "next=x"` a cursor the caller never received).
      `UnescapedFilterSent` shows the server receives them. */
  lemma UnescapedFilterAddsParameter(limit: Option<nat>, k: string, v1: string, v2: string)
    requires NoAmp(k) && NoAmp(v1) && NoAmp(v2)
    ensures Fields(QueryString(limit, None, Some([(k, v1 + "&" + v2)])))
         == [LimitParameter(limit), MatchParameter(k, v1), v2]
  {
    var pairs := [(k, v1 + "&" + v2)];
    var head := LimitParameter(limit);
    var p := MatchParameter(k, v1 + "&" + v2);
    assert MatchQuery(Some(pairs)) == "&" + p by {
      FoldMatchesAppends("", pairs);
      assert MatchParameters(pairs) == [p];
      assert AmpJoin([p]) == "&" + p + AmpJoin([]);
    }
    assert QueryString(limit, None, Some(pairs)) == head + "&" + p;
    assert Fields(p) == [MatchParameter(k, v1), v2] by {
      assert p == MatchParameter(k, v1) + "&" + v2;
      MatchParameterNoAmp(k, v1);
      FieldsOfJoin(MatchParameter(k, v1), v2);
      FieldsOfPlain(MatchParameter(k, v1));
      FieldsOfPlain(v2);
    }
    LimitParameterNoAmp(limit);
    FieldsOfPlain(head);
    FieldsOfJoin(head, p);
  }

  /** The smuggled parameter reaches the server: with a root and a
      collection that hold no `?` or `#`, the first page of a single filter
      `k = v1&v2` is sent with the query `limit=N&match[k]=v1&v2`. */
  lemma UnescapedFilterSent(root: string, collection: string, limit: Option<nat>, k: string, v1: string, v2: string)
    requires PathSafe(root) && PathSafe(collection)
    requires NoAmp(k) && NoAmp(v1) && NoAmp(v2)
    requires '#' !in k && '#' !in v1 && '#' !in v2
    ensures Fields(SentQuery(FirstPageUrl(root, collection, limit, None, Some([(k, v1 + "&" + v2)]))))
         == [LimitParameter(limit), MatchParameter(k, v1), v2]
  {
    var matches := Some([(k, v1 + "&" + v2)]);
    var q := QueryString(limit, None, matches);
    assert '#' !in "&";
    LacksConcat(v1, "&", '#');
    LacksConcat(v1 + "&", v2, '#');
    assert FragmentFree(None, matches);
    QueryNoHash(limit, None, matches, []);
    assert q + NextQuery([]) == q;
    ObjectsPathSafe(root, collection);
    SentQueryOf(ObjectsPath(root, collection), q);
    UnescapedFilterAddsParameter(limit, k, v1, v2);
  }

  /** A timestamp `t1#t2` makes the query text `limit=N&added_after=t1`
      followed by `#t2` and whatever is appended after it. */
  lemma HashedTimestampQuery(limit: Option<nat>, t1: string, t2: string, rest: string)
    ensures QueryString(limit, Some(t1 + "#" + t2), None) + rest
         == (LimitParameter(limit) + "&" + ("added_after=" + t1)) + ("#" + t2 + rest)
  {
    TimestampOnlyQuery(limit, t1 + "#" + t2);
    Regroup(LimitParameter(limit), "added_after=", t1, t2, rest);
  }

  lemma TimestampOnlyQuery(limit: Option<nat>, t: string)
    ensures QueryString(limit, Some(t), None) == LimitParameter(limit) + "&" + ("added_after=" + t)
  {
    var p := "added_after=" + t;
    assert AmpJoin([p]) == "&" + p + AmpJoin([]);
  }

  lemma Regroup(h: string, a: string, x: string, y: string, rest: string)
    ensures (h + "&" + (a + (x + "#" + y))) + rest == (h + "&" + (a + x)) + ("#" + y + rest)
  {
  }

  lemma TimestampParameters(limit: Option<nat>, t1: string)
    requires '#' !in t1 && NoAmp(t1)
    ensures var a := LimitParameter(limit) + "&" + ("added_after=" + t1);
            '#' !in a && Fields(a) == [LimitParameter(limit), "added_after=" + t1]
  {
    var head := LimitParameter(limit);
    var p := "added_after=" + t1;
    LimitParameterNoHash(limit);
    assert '#' !in "&" && '#' !in "added_after=";
    LacksConcat("added_after=", t1, '#');
    LacksConcat(head, "&", '#');
    LacksConcat(head + "&", p, '#');
    assert NoAmp("added_after=");
    NoAmpConcat("added_after=", t1);
    LimitParameterNoAmp(limit);
    FieldsOfPlain(head);
    FieldsOfPlain(p);
    FieldsOfJoin(head, p);
  }

  /** A `#` in the timestamp starts the fragment: the server receives the
      page size and the timestamp up to the `#`, and neither the rest of it
      nor any cursor appended later. */
  lemma FragmentHidesCursors(root: string, collection: string, limit: Option<nat>, t1: string, t2: string,
                             cursors: seq<string>)
    requires PathSafe(root) && PathSafe(collection) && '#' !in t1 && NoAmp(t1)
    ensures Fields(SentQuery(FirstPageUrl(root, collection, limit, Some(t1 + "#" + t2), None) + NextQuery(cursors)))
         == [LimitParameter(limit), "added_after=" + t1]
  {
    var path := ObjectsPath(root, collection);
    var a := LimitParameter(limit) + "&" + ("added_after=" + t1);
    var b := "#" + t2 + NextQuery(cursors);
    var qs := QueryString(limit, Some(t1 + "#" + t2), None);
    HashedTimestampQuery(limit, t1, t2, NextQuery(cursors));
    ConcatAssoc(path, "?", qs, NextQuery(cursors));
    ConcatAssoc(path, "?", a, b);
    TimestampParameters(limit, t1);
    ObjectsPathSafe(root, collection);
    SentQueryCut(path, a, b);
  }
}
