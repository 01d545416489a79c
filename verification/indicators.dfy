/** `get_cc_indicators` (src/cctaxiiclient.rs): choose the API root and the
    collection, build the first-page URL, then run the cursor loop. */
module Indicators {
  import opened Wrappers
  import opened TaxiiErrors
  import opened TaxiiTypes
  import opened CCTaxiiClient
  import opened Pagination
  import Query

  const PublicRoot: string := "api"
  const NoCollections: string := "No collections available"

  /** The caller's request. `matches` is the filter map in the order the
      map happens to iterate, which the source leaves unspecified. */
  datatype Params = Params(
    collectionId: Option<string>,
    limit: Option<nat>,
    private: bool,
    addedAfter: Option<string>,
    matches: Option<seq<(string, string)>>,
    followPages: bool)

  /** The private root is the account name; the public one is `api`. */
  function Root(c: Client, private: bool): string {
    if private then c.account else PublicRoot
  }

  /** The collection to query: the given identifier as is, or else the
      first identifier the listing of `root` returns. */
  function SelectCollection(c: Client, srv: Server, root: string, collectionId: Option<string>): (r: Result<string>)
    ensures collectionId.Some? ==> r == Ok(collectionId.value)
    ensures var listed := GetCollections(c, srv, root);
            collectionId.None? ==>
              && (r.Ok? <==> listed.Ok? && |listed.value| > 0)
              && (r.Ok? ==> r.value == listed.value[0])
              && (listed.Err? ==> r == Err(listed.error))
              && (listed == Ok([]) ==> r == Err(TaxiiCollectionError(NoCollections)))
  {
    match collectionId
    case Some(id) => Ok(id)
    case None =>
      var ids :- GetCollections(c, srv, root);
      if |ids| == 0 then Err(TaxiiCollectionError(NoCollections)) else Ok(ids[0])
  }

  /** The first-page URL for a chosen root and collection. */
  function FirstUrl(root: string, collection: string, p: Params): string {
    Query.FirstPageUrl(root, collection, p.limit, p.addedAfter, p.matches)
  }

  /** `get_cc_indicators`, with a page budget for the loop. The trace lists
      every path requested, the collection listing included. */
  function GetIndicators(c: Client, srv: Server, p: Params, fuel: nat): (t: Trace)
    ensures p.collectionId.None? ==> |t.requests| >= 1 && t.requests[0] == (if p.private then c.account else "api") + "/collections/"
    ensures |t.pages| <= |t.requests| <= fuel + (if p.collectionId.None? then 1 else 0)
  {
    var root := Root(c, p.private);
    var listing: seq<string> := if p.collectionId.None? then [Query.CollectionsPath(root)] else [];
    match SelectCollection(c, srv, root, p.collectionId)
    case Err(e) => Trace(listing, [], Failed(e))
    case Ok(collection) =>
      var run := Walk(PageSource(c, srv), FirstUrl(root, collection, p), p.followPages, fuel);
      Trace(listing + run.requests, run.pages, run.outcome)
  }

  // ----- Lemmas -----

  predicate StartsWith(s: string, prefix: string) {
    |prefix| <= |s| && s[..|prefix|] == prefix
  }

  lemma StartsWithTransitive(s: string, mid: string, prefix: string)
    requires StartsWith(s, mid) && StartsWith(mid, prefix)
    ensures StartsWith(s, prefix)
  {
    assert s[..|prefix|] == s[..|mid|][..|prefix|];
  }

  lemma StartsWithConcat(a: string, b: string)
    ensures StartsWith(a + b, a)
  {
    assert (a + b)[..|a|] == a;
  }

  lemma FirstUrlUnderRoot(root: string, collection: string, p: Params)
    ensures StartsWith(FirstUrl(root, collection, p), root + "/collections/")
  {
    var u1 := root + "/collections/";
    var u2 := u1 + collection;
    var u3 := u2 + "/objects/";
    var u4 := u3 + "?";
    var u5 := u4 + Query.QueryString(p.limit, p.addedAfter, p.matches);
    assert FirstUrl(root, collection, p) == u5;
    StartsWithConcat(u1, collection);
    StartsWithConcat(u2, "/objects/");
    StartsWithTransitive(u3, u2, u1);
    StartsWithConcat(u3, "?");
    StartsWithTransitive(u4, u3, u1);
    StartsWithConcat(u4, Query.QueryString(p.limit, p.addedAfter, p.matches));
    StartsWithTransitive(u5, u4, u1);
  }

  /** Every request of the loop extends the first URL. */
  lemma WalkStaysUnder(c: Client, srv: Server, url: string, followPages: bool, fuel: nat)
    ensures forall r :: r in Walk(PageSource(c, srv), url, followPages, fuel).requests ==> StartsWith(r, url)
  {
    var t := Walk(PageSource(c, srv), url, followPages, fuel);
    WalkSound(PageSource(c, srv), url, followPages, fuel);
    forall i | 0 <= i < |t.requests|
      ensures StartsWith(t.requests[i], url)
    {
      assert t.requests[i] == url + Query.NextQuery(Cursors(t.pages[..i]));
    }
  }

  /** Every request goes under the chosen root: the account name for a
      private query, `api` otherwise. */
  lemma RootSelection(c: Client, srv: Server, p: Params, fuel: nat)
    ensures forall r :: r in GetIndicators(c, srv, p, fuel).requests ==>
              StartsWith(r, (if p.private then c.account else "api") + "/collections/")
  {
    var t := GetIndicators(c, srv, p, fuel);
    var root := Root(c, p.private);
    var prefix := root + "/collections/";
    var listing: seq<string> := if p.collectionId.None? then [Query.CollectionsPath(root)] else [];
    assert forall r :: r in listing ==> StartsWith(r, prefix);
    match SelectCollection(c, srv, root, p.collectionId)
    case Err(e) =>
      assert t.requests == listing;
    case Ok(collection) =>
      var url := FirstUrl(root, collection, p);
      var run := Walk(PageSource(c, srv), url, p.followPages, fuel);
      assert t.requests == listing + run.requests;
      FirstUrlUnderRoot(root, collection, p);
      WalkStaysUnder(c, srv, url, p.followPages, fuel);
      forall r | r in run.requests
        ensures StartsWith(r, prefix)
      {
        StartsWithTransitive(r, url, prefix);
      }
  }

  /** A supplied collection identifier is used verbatim and no listing is
      requested: the run is the loop from that collection's first page. */
  lemma SuppliedCollection(c: Client, srv: Server, p: Params, fuel: nat, id: string)
    requires p.collectionId == Some(id)
    ensures GetIndicators(c, srv, p, fuel)
         == Walk(PageSource(c, srv), Query.FirstPageUrl(Root(c, p.private), id, p.limit, p.addedAfter, p.matches), p.followPages, fuel)
  {
  }

  /** Without an identifier the listing of the root is requested first. An
      error there ends the call; an empty listing fails with
      `TaxiiCollectionError` before any object request; otherwise the first
      listed identifier is queried. */
  lemma DefaultCollection(c: Client, srv: Server, p: Params, fuel: nat)
    requires p.collectionId.None?
    ensures var root := Root(c, p.private);
            var t := GetIndicators(c, srv, p, fuel);
            var listed := GetCollections(c, srv, root);
            && |t.requests| >= 1 && t.requests[0] == root + "/collections/"
            && (listed.Err? ==> t == Trace([root + "/collections/"], [], Failed(listed.error)))
            && (listed == Ok([]) ==> t == Trace([root + "/collections/"], [], Failed(TaxiiCollectionError(NoCollections))))
            && (listed.Ok? && |listed.value| > 0 ==>
                  var run := Walk(PageSource(c, srv), Query.FirstPageUrl(root, listed.value[0], p.limit, p.addedAfter, p.matches),
                                  p.followPages, fuel);
                  t.requests[1..] == run.requests && t.pages == run.pages && t.outcome == run.outcome)
  {
    var root := Root(c, p.private);
    var t := GetIndicators(c, srv, p, fuel);
    var listed := GetCollections(c, srv, root);
    if listed.Ok? && |listed.value| > 0 {
      var run := Walk(PageSource(c, srv), Query.FirstPageUrl(root, listed.value[0], p.limit, p.addedAfter, p.matches), p.followPages, fuel);
      assert t.requests == [root + "/collections/"] + run.requests;
    }
  }

  /** The listing `["X", "Y"]` makes the query target `X`. */
  lemma FirstListedCollectionWins(c: Client, srv: Server, p: Params, fuel: nat)
    requires p.collectionId.None? && fuel >= 1
    requires GetCollections(c, srv, Root(c, p.private)) == Ok(["X", "Y"])
    ensures GetIndicators(c, srv, p, fuel).requests[1]
         == Query.FirstPageUrl(Root(c, p.private), "X", p.limit, p.addedAfter, p.matches)
  {
    DefaultCollection(c, srv, p, fuel);
  }

  /** A successful call returns the objects of the fetched pages in fetch
      order, and every one of those pages was served at the URL built from
      the first-page URL and the cursors before it; a failed call returns
      only the error. */
  lemma ResultIsPages(c: Client, srv: Server, p: Params, fuel: nat)
    ensures var t := GetIndicators(c, srv, p, fuel);
            && (t.outcome.Done? ==> t.outcome.indicators == Flatten(t.pages) && |t.pages| >= 1)
            && (t.outcome.Done? ==> !Continues(Last(t.pages), p.followPages))
            && (t.outcome.Failed? ==> t.outcome.error.TaxiiCollectionError? ==> p.collectionId.None? && t.pages == [])
  {
    var root := Root(c, p.private);
    match SelectCollection(c, srv, root, p.collectionId)
    case Err(e) =>
    case Ok(collection) =>
      WalkSound(PageSource(c, srv), FirstUrl(root, collection, p), p.followPages, fuel);
      var run := Walk(PageSource(c, srv), FirstUrl(root, collection, p), p.followPages, fuel);
      if run.outcome.Failed? {
        assert Fetch(c, srv, run.requests[|run.pages|]) == Err(run.outcome.error);
      }
  }

  /** A supplied identifier is not checked against the listing: when the
      server answers its first page with 404 the call fails with
      `TaxiiNotFound`, not with `TaxiiCollectionError`. */
  lemma UnknownCollectionNotFound(c: Client, srv: Server, p: Params, fuel: nat, id: string, r: Response)
    requires p.collectionId == Some(id) && fuel >= 1
    requires srv.exchange(c.baseUrl + "/" + FirstUrl(Root(c, p.private), id, p)) == StatusError(404, r)
    ensures GetIndicators(c, srv, p, fuel) == Trace([FirstUrl(Root(c, p.private), id, p)], [], Failed(TaxiiNotFound(r)))
  {
  }

  /** A URL the loop builds from the first page of `collection`: the
      objects endpoint, `?`, and a query text that, when no interpolated
      value holds `&`, cuts into the intended parameters followed by one
      `next` per cursor. */
  lemma PageQuery(root: string, collection: string, p: Params, cursors: seq<string>)
    requires Query.Unambiguous(p.addedAfter, p.matches)
    requires forall j :: 0 <= j < |cursors| ==> Query.NoAmp(cursors[j])
    ensures var q := Query.QueryString(p.limit, p.addedAfter, p.matches) + Query.NextQuery(cursors);
            && FirstUrl(root, collection, p) + Query.NextQuery(cursors) == Query.ObjectsPath(root, collection) + "?" + q
            && Query.Fields(q) == Query.IntendedParameters(p.limit, p.addedAfter, p.matches) + Query.NextParameters(cursors)
  {
    var path := Query.ObjectsPath(root, collection);
    var qs := Query.QueryString(p.limit, p.addedAfter, p.matches);
    var nq := Query.NextQuery(cursors);
    Query.ConcatAssoc(path, "?", qs, nq);
    Query.QueryParameters(p.limit, p.addedAfter, p.matches, cursors);
  }

  /** Object request `i` of a run is the collection's objects endpoint and a
      query text that, when no interpolated value holds `&`, cuts into the
      intended parameters followed by one `next` for each cursor received
      before that request. `ObjectRequestSent` gives what the server
      receives. */
  lemma ObjectRequestParameters(fetch: string -> Result<Envelope>, root: string, collection: string, p: Params, fuel: nat, i: nat)
    requires Query.Unambiguous(p.addedAfter, p.matches)
    requires i < |Walk(fetch, FirstUrl(root, collection, p), p.followPages, fuel).requests|
    requires var cursors := Cursors(Walk(fetch, FirstUrl(root, collection, p), p.followPages, fuel).pages[..i]);
             forall j :: 0 <= j < |cursors| ==> Query.NoAmp(cursors[j])
    ensures var t := Walk(fetch, FirstUrl(root, collection, p), p.followPages, fuel);
            var cursors := Cursors(t.pages[..i]);
            var q := Query.QueryString(p.limit, p.addedAfter, p.matches) + Query.NextQuery(cursors);
            && t.requests[i] == Query.ObjectsPath(root, collection) + "?" + q
            && Query.Fields(q) == Query.IntendedParameters(p.limit, p.addedAfter, p.matches) + Query.NextParameters(cursors)
  {
    var url := FirstUrl(root, collection, p);
    var t := Walk(fetch, url, p.followPages, fuel);
    WalkRequestUrl(fetch, url, p.followPages, fuel, i);
    PageQuery(root, collection, p, Cursors(t.pages[..i]));
  }

  /** What the server receives for a page URL: when the root and the
      collection hold no `?` or `#`, and no value or cursor holds `&` or
      `#`, the query sent is the whole query text, so the server reads the
      intended parameters and then one `next` per cursor. */
  lemma PageSentQuery(root: string, collection: string, p: Params, cursors: seq<string>)
    requires Query.PathSafe(root) && Query.PathSafe(collection)
    requires Query.Unambiguous(p.addedAfter, p.matches) && Query.FragmentFree(p.addedAfter, p.matches)
    requires forall j :: 0 <= j < |cursors| ==> Query.NoAmp(cursors[j]) && '#' !in cursors[j]
    ensures Query.Fields(Query.SentQuery(FirstUrl(root, collection, p) + Query.NextQuery(cursors)))
         == Query.IntendedParameters(p.limit, p.addedAfter, p.matches) + Query.NextParameters(cursors)
  {
    PageQuery(root, collection, p, cursors);
    Query.QueryNoHash(p.limit, p.addedAfter, p.matches, cursors);
    Query.ObjectsPathSafe(root, collection);
    Query.SentQueryOf(Query.ObjectsPath(root, collection),
                      Query.QueryString(p.limit, p.addedAfter, p.matches) + Query.NextQuery(cursors));
  }

  /** Object request `i` of a run, as the server receives it: the intended
      parameters followed by one `next` for each cursor received before
      that request, when no path part holds `?` or `#` and no value or
      cursor holds `&` or `#`. */
  lemma ObjectRequestSent(fetch: string -> Result<Envelope>, root: string, collection: string, p: Params, fuel: nat, i: nat)
    requires Query.PathSafe(root) && Query.PathSafe(collection)
    requires Query.Unambiguous(p.addedAfter, p.matches) && Query.FragmentFree(p.addedAfter, p.matches)
    requires i < |Walk(fetch, FirstUrl(root, collection, p), p.followPages, fuel).requests|
    requires var cursors := Cursors(Walk(fetch, FirstUrl(root, collection, p), p.followPages, fuel).pages[..i]);
             forall j :: 0 <= j < |cursors| ==> Query.NoAmp(cursors[j]) && '#' !in cursors[j]
    ensures var t := Walk(fetch, FirstUrl(root, collection, p), p.followPages, fuel);
            Query.Fields(Query.SentQuery(t.requests[i]))
              == Query.IntendedParameters(p.limit, p.addedAfter, p.matches) + Query.NextParameters(Cursors(t.pages[..i]))
  {
    var url := FirstUrl(root, collection, p);
    var t := Walk(fetch, url, p.followPages, fuel);
    WalkRequestUrl(fetch, url, p.followPages, fuel, i);
    PageSentQuery(root, collection, p, Cursors(t.pages[..i]));
  }
}
