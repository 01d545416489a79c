/** The cursor loop of `get_cc_indicators` (src/cctaxiiclient.rs): fetch a
    page, keep its objects, and follow the server's `next` cursor while the
    caller asked to and the server says there is more.

    The source loop has no bound; here every run carries a page budget
    (`fuel`) and reports `OutOfFuel` when the budget is spent before the
    loop ends. Whenever the budget covers the pages the server serves, the
    outcome is the source's (see `WalkComplete`). */
module Pagination {
  import opened Wrappers
  import opened TaxiiErrors
  import opened TaxiiTypes
  import opened CCTaxiiClient
  import Query

  datatype Outcome = Done(indicators: seq<Indicator>) | Failed(error: TaxiiError) | OutOfFuel

  /** A run of the client: the paths passed to `request` in order, the
      envelopes decoded from them, and the result. */
  datatype Trace = Trace(requests: seq<string>, pages: seq<Envelope>, outcome: Outcome)

  /** One page: `request`, then decode the body as an envelope. */
  function Fetch(c: Client, srv: Server, url: string): (r: Result<Envelope>)
    ensures var x := srv.exchange(c.baseUrl + "/" + url);
            && (r.Ok? <==> x.Delivered? && srv.decodeEnvelope(x.response).Parsed?)
            && (r.Ok? ==> r.value == srv.decodeEnvelope(x.response).value)
            && (x.Delivered? && srv.decodeEnvelope(x.response).Malformed? ==>
                  r == Err(JsonDeserializationError(srv.decodeEnvelope(x.response).message)))
            && (!x.Delivered? ==> r.Err? && IsTransportError(r.error))
  {
    var response :- Request(c, srv, url);
    Decode(srv.decodeEnvelope(response))
  }

  /** The client's page fetch as the loop sees it: a page or an error for
      each URL. The loop is stated over any such function. */
  function PageSource(c: Client, srv: Server): string -> Result<Envelope> {
    url => Fetch(c, srv, url)
  }

  /** After page `e` the loop goes on: the caller follows pages, the server
      says `more` (absent counts as false), and there is a cursor. */
  predicate Continues(e: Envelope, followPages: bool) {
    followPages && e.more.GetOr(false) && e.next.Some?
  }

  /** A run that starts with the request of `url` answered by `envelope` and
      goes on as `rest`. */
  function Prepend(url: string, envelope: Envelope, rest: Trace): Trace {
    Trace([url] + rest.requests, [envelope] + rest.pages,
      match rest.outcome
      case Done(objects) => Done(envelope.objects + objects)
      case _ => rest.outcome)
  }

  /** The loop, one page per call, spending one unit of `fuel` per request. */
  function Walk(fetch: string -> Result<Envelope>, url: string, followPages: bool, fuel: nat): (t: Trace)
    ensures |t.pages| <= |t.requests| <= |t.pages| + 1
    ensures |t.requests| <= fuel
    decreases fuel
  {
    if fuel == 0 then Trace([], [], OutOfFuel)
    else match fetch(url)
      case Err(e) => Trace([url], [], Failed(e))
      case Ok(envelope) =>
        var more := followPages && envelope.more.GetOr(false);
        match envelope.next
        case None => Trace([url], [envelope], Done(envelope.objects))
        case Some(cursor) =>
          if !more then Trace([url], [envelope], Done(envelope.objects))
          else Prepend(url, envelope, Walk(fetch, url + Query.NextParam(cursor), followPages, fuel - 1))
  }

  // ----- The reference: what a run must look like -----

  /** The cursors the given pages carried, oldest first. */
  function Cursors(pages: seq<Envelope>): seq<string> {
    if |pages| == 0 then []
    else (match pages[0].next case None => [] case Some(cursor) => [cursor]) + Cursors(pages[1..])
  }

  /** The URL requested after the given pages: the first URL with every
      cursor so far appended, none replaced. */
  function PageUrl(url: string, before: seq<Envelope>): string {
    url + Query.NextQuery(Cursors(before))
  }

  function Last(pages: seq<Envelope>): Envelope
    requires |pages| > 0
  {
    pages[|pages| - 1]
  }

  /** Requests and pages fit each other and the budget: one request per
      decoded page, plus at most one that failed. */
  ghost predicate Bounded(fuel: nat, t: Trace) {
    |t.pages| <= |t.requests| <= |t.pages| + 1 && |t.requests| <= fuel
  }

  /** Request k goes to the first URL plus the cursors of the first k pages. */
  ghost predicate FollowsCursors(url: string, t: Trace) {
    && |t.requests| <= |t.pages| + 1
    && forall i :: 0 <= i < |t.requests| ==> t.requests[i] == PageUrl(url, t.pages[..i])
  }

  /** Each decoded page is the answer to its request. */
  ghost predicate Served(fetch: string -> Result<Envelope>, t: Trace) {
    |t.pages| <= |t.requests| && forall i :: 0 <= i < |t.pages| ==> fetch(t.requests[i]) == Ok(t.pages[i])
  }

  /** Every page but the last continues the loop. */
  ghost predicate KeepsGoing(followPages: bool, t: Trace) {
    forall i :: 0 <= i < |t.pages| - 1 ==> Continues(t.pages[i], followPages)
  }

  /** The run ends with the objects of all pages once a page stops the loop,
      with the error of the one request that failed, or with the budget
      spent; in the last two cases the last page still continued. */
  ghost predicate Ends(fetch: string -> Result<Envelope>, followPages: bool, fuel: nat, t: Trace) {
    match t.outcome
    case Done(objects) =>
      && |t.requests| == |t.pages| >= 1
      && !Continues(Last(t.pages), followPages)
      && objects == Flatten(t.pages)
    case Failed(e) =>
      && |t.requests| == |t.pages| + 1
      && (|t.pages| >= 1 ==> Continues(Last(t.pages), followPages))
      && fetch(t.requests[|t.pages|]) == Err(e)
    case OutOfFuel =>
      && |t.requests| == |t.pages| == fuel
      && (|t.pages| >= 1 ==> Continues(Last(t.pages), followPages))
  }

  /** `t` is a run the source loop can produce from `url` within `fuel`
      requests: request k goes to the first URL plus the first k cursors,
      every decoded page but the last continues the loop, and the run ends
      with the concatenated objects when a page stops it, with the error of
      the request that failed, or with the budget spent. */
  ghost predicate ValidRun(fetch: string -> Result<Envelope>, url: string, followPages: bool, fuel: nat, t: Trace) {
    && Bounded(fuel, t)
    && FollowsCursors(url, t)
    && Served(fetch, t)
    && KeepsGoing(followPages, t)
    && Ends(fetch, followPages, fuel, t)
  }

  // ----- Lemmas -----

  lemma NextQueryCons(cursor: string, cursors: seq<string>)
    ensures Query.NextQuery([cursor] + cursors) == Query.NextParam(cursor) + Query.NextQuery(cursors)
  {
    assert Query.NextParameters([cursor] + cursors)[1..] == Query.NextParameters(cursors);
    assert "&" + ("next=" + cursor) == "&next=" + cursor;
  }

  lemma PageUrlCons(url: string, e: Envelope, rest: seq<Envelope>)
    requires e.next.Some?
    ensures PageUrl(url, [e] + rest) == PageUrl(url + Query.NextParam(e.next.value), rest)
  {
    assert ([e] + rest)[1..] == rest;
    NextQueryCons(e.next.value, Cursors(rest));
  }

  lemma PageUrlFirst(url: string)
    ensures PageUrl(url, []) == url
  {
  }

  lemma FlattenCons(e: Envelope, rest: seq<Envelope>)
    ensures Flatten([e] + rest) == e.objects + Flatten(rest)
  {
    assert ([e] + rest)[1..] == rest;
  }

  // Prepending a continuing page to a valid run, one conjunct at a time.

  lemma PrependFollows(url: string, e: Envelope, t': Trace)
    requires e.next.Some? && FollowsCursors(url + Query.NextParam(e.next.value), t')
    ensures FollowsCursors(url, Prepend(url, e, t'))
  {
    var t := Prepend(url, e, t');
    assert t.pages == [e] + t'.pages;
    forall i | 0 <= i < |t.requests|
      ensures t.requests[i] == PageUrl(url, t.pages[..i])
    {
      if i == 0 {
        PageUrlFirst(url);
      } else {
        assert t.requests[i] == t'.requests[i - 1];
        assert t.pages[..i] == [e] + t'.pages[..i - 1];
        PageUrlCons(url, e, t'.pages[..i - 1]);
      }
    }
  }

  lemma PrependServed(fetch: string -> Result<Envelope>, url: string, e: Envelope, t': Trace)
    requires fetch(url) == Ok(e) && Served(fetch, t')
    ensures Served(fetch, Prepend(url, e, t'))
  {
    var t := Prepend(url, e, t');
    forall i | 0 <= i < |t.pages|
      ensures fetch(t.requests[i]) == Ok(t.pages[i])
    {
      if i > 0 {
        assert t.requests[i] == t'.requests[i - 1] && t.pages[i] == t'.pages[i - 1];
      }
    }
  }

  lemma PrependKeepsGoing(followPages: bool, url: string, e: Envelope, t': Trace)
    requires Continues(e, followPages) && KeepsGoing(followPages, t')
    ensures KeepsGoing(followPages, Prepend(url, e, t'))
  {
    var t := Prepend(url, e, t');
    forall i | 0 <= i < |t.pages| - 1
      ensures Continues(t.pages[i], followPages)
    {
      if i > 0 {
        assert t.pages[i] == t'.pages[i - 1];
      }
    }
  }

  lemma PrependEnds(fetch: string -> Result<Envelope>, followPages: bool, fuel: nat, url: string, e: Envelope, t': Trace)
    requires fuel >= 1 && Continues(e, followPages)
    requires Bounded(fuel - 1, t') && Ends(fetch, followPages, fuel - 1, t')
    ensures Ends(fetch, followPages, fuel, Prepend(url, e, t'))
  {
    var t := Prepend(url, e, t');
    assert t.pages == [e] + t'.pages;
    if |t'.pages| >= 1 {
      assert Last(t.pages) == Last(t'.pages);
    }
    match t'.outcome
    case Done(objects) =>
      FlattenCons(e, t'.pages);
    case Failed(err) =>
      assert t.requests[|t.pages|] == t'.requests[|t'.pages|];
    case OutOfFuel =>
  }

  /** A valid run from the next URL, preceded by a page that continues the
      loop, is a valid run from this URL. */
  lemma PrependValid(fetch: string -> Result<Envelope>, url: string, followPages: bool, fuel: nat,
                     e: Envelope, t': Trace)
    requires fuel >= 1 && fetch(url) == Ok(e) && Continues(e, followPages)
    requires ValidRun(fetch, url + Query.NextParam(e.next.value), followPages, fuel - 1, t')
    ensures ValidRun(fetch, url, followPages, fuel, Prepend(url, e, t'))
  {
    PrependFollows(url, e, t');
    PrependServed(fetch, url, e, t');
    PrependKeepsGoing(followPages, url, e, t');
    PrependEnds(fetch, followPages, fuel, url, e, t');
  }

  /** Every run of the loop is a valid run. */
  lemma {:induction false} WalkSound(fetch: string -> Result<Envelope>, url: string, followPages: bool, fuel: nat)
    ensures ValidRun(fetch, url, followPages, fuel, Walk(fetch, url, followPages, fuel))
    decreases fuel
  {
    if fuel > 0 {
      PageUrlFirst(url);
      if fetch(url).Ok? {
        var e := fetch(url).value;
        if Continues(e, followPages) {
          var url' := url + Query.NextParam(e.next.value);
          WalkSound(fetch, url', followPages, fuel - 1);
          PrependValid(fetch, url, followPages, fuel, e, Walk(fetch, url', followPages, fuel - 1));
        } else {
          assert Flatten([e]) == e.objects + Flatten([]);
        }
      }
    }
  }

  /** The run without its first page, as seen from the second URL. */
  function Tail(t: Trace): Trace
    requires |t.pages| >= 1 && |t.requests| >= 1
  {
    Trace(t.requests[1..], t.pages[1..],
      match t.outcome
      case Done(_) => Done(Flatten(t.pages[1..]))
      case _ => t.outcome)
  }

  // Dropping a continuing first page from a valid run, one conjunct at a time.

  lemma TailShape(url: string, t: Trace)
    requires |t.pages| >= 1 && |t.requests| >= 1 && t.requests[0] == url
    requires t.outcome.Done? ==> t.outcome.indicators == Flatten(t.pages)
    ensures t == Prepend(url, t.pages[0], Tail(t))
  {
    var e := t.pages[0];
    var t' := Tail(t);
    assert t.pages == [e] + t'.pages;
    assert t.requests == [url] + t'.requests;
    if t.outcome.Done? {
      FlattenCons(e, t'.pages);
    }
  }

  lemma TailFollows(url: string, t: Trace)
    requires |t.pages| >= 1 && |t.requests| >= 1 && t.pages[0].next.Some? && FollowsCursors(url, t)
    ensures FollowsCursors(url + Query.NextParam(t.pages[0].next.value), Tail(t))
  {
    var e := t.pages[0];
    var url' := url + Query.NextParam(e.next.value);
    var t' := Tail(t);
    assert t.pages == [e] + t'.pages;
    forall i | 0 <= i < |t'.requests|
      ensures t'.requests[i] == PageUrl(url', t'.pages[..i])
    {
      assert t'.requests[i] == t.requests[i + 1];
      assert t.pages[..i + 1] == [e] + t'.pages[..i];
      PageUrlCons(url, e, t'.pages[..i]);
    }
  }

  lemma TailServed(fetch: string -> Result<Envelope>, t: Trace)
    requires |t.pages| >= 1 && Served(fetch, t)
    ensures Served(fetch, Tail(t))
  {
    var t' := Tail(t);
    forall i | 0 <= i < |t'.pages|
      ensures fetch(t'.requests[i]) == Ok(t'.pages[i])
    {
      assert t'.requests[i] == t.requests[i + 1] && t'.pages[i] == t.pages[i + 1];
    }
  }

  lemma TailKeepsGoing(followPages: bool, t: Trace)
    requires |t.pages| >= 1 && |t.requests| >= 1 && KeepsGoing(followPages, t)
    ensures KeepsGoing(followPages, Tail(t))
  {
    var t' := Tail(t);
    forall i | 0 <= i < |t'.pages| - 1
      ensures Continues(t'.pages[i], followPages)
    {
      assert t'.pages[i] == t.pages[i + 1];
    }
  }

  lemma TailEnds(fetch: string -> Result<Envelope>, followPages: bool, fuel: nat, t: Trace)
    requires |t.pages| >= 1 && Continues(t.pages[0], followPages)
    requires Bounded(fuel, t) && KeepsGoing(followPages, t) && Ends(fetch, followPages, fuel, t)
    ensures fuel >= 1
    ensures Ends(fetch, followPages, fuel - 1, Tail(t))
  {
    var t' := Tail(t);
    if |t'.pages| >= 1 {
      assert Last(t'.pages) == Last(t.pages);
    }
    if t.outcome.Failed? {
      assert t'.requests[|t'.pages|] == t.requests[|t.pages|];
    }
  }

  lemma TailValid(fetch: string -> Result<Envelope>, url: string, followPages: bool, fuel: nat, t: Trace)
    requires ValidRun(fetch, url, followPages, fuel, t)
    requires |t.pages| >= 1 && Continues(t.pages[0], followPages)
    ensures fuel >= 1
    ensures ValidRun(fetch, url + Query.NextParam(t.pages[0].next.value), followPages, fuel - 1, Tail(t))
  {
    TailFollows(url, t);
    TailServed(fetch, t);
    TailKeepsGoing(followPages, t);
    TailEnds(fetch, followPages, fuel, t);
  }

  /** The first request of a valid run with budget left is the first URL,
      and its answer is the first page or the run's error. */
  lemma ValidRunFirst(fetch: string -> Result<Envelope>, url: string, followPages: bool, fuel: nat, t: Trace)
    requires ValidRun(fetch, url, followPages, fuel, t) && fuel >= 1
    ensures |t.requests| >= 1 && t.requests[0] == url
    ensures |t.pages| == 0 ==> t.outcome.Failed? && t.requests == [url] && fetch(url) == Err(t.outcome.error)
    ensures |t.pages| >= 1 ==> fetch(url) == Ok(t.pages[0])
  {
    PageUrlFirst(url);
  }

  /** A valid run whose first page stops the loop has only that page. */
  lemma ValidRunStops(fetch: string -> Result<Envelope>, url: string, followPages: bool, fuel: nat, t: Trace)
    requires ValidRun(fetch, url, followPages, fuel, t) && fuel >= 1
    requires |t.pages| >= 1 && !Continues(t.pages[0], followPages)
    ensures t == Trace([url], [t.pages[0]], Done(t.pages[0].objects))
  {
    PageUrlFirst(url);
    assert |t.pages| == 1;
    assert t.outcome.Done?;
    assert Flatten(t.pages) == t.pages[0].objects + Flatten([]);
  }

  /** A valid run is the run: the loop produces exactly the valid runs, so
      whatever the server serves, a budget that covers it gives the source's
      result. */
  lemma {:induction false} WalkComplete(fetch: string -> Result<Envelope>, url: string, followPages: bool, fuel: nat, t: Trace)
    requires ValidRun(fetch, url, followPages, fuel, t)
    ensures Walk(fetch, url, followPages, fuel) == t
    decreases fuel
  {
    if fuel == 0 {
      assert t.requests == [] && t.pages == [];
    } else {
      ValidRunFirst(fetch, url, followPages, fuel, t);
      if |t.pages| >= 1 {
        var e := t.pages[0];
        if Continues(e, followPages) {
          TailShape(url, t);
          TailValid(fetch, url, followPages, fuel, t);
          WalkComplete(fetch, url + Query.NextParam(e.next.value), followPages, fuel - 1, Tail(t));
        } else {
          ValidRunStops(fetch, url, followPages, fuel, t);
        }
      }
    }
  }

  /** Request `i` of the loop's run is the first URL followed by the
      cursors of the pages before it. */
  lemma WalkRequestUrl(fetch: string -> Result<Envelope>, url: string, followPages: bool, fuel: nat, i: nat)
    requires i < |Walk(fetch, url, followPages, fuel).requests|
    ensures var t := Walk(fetch, url, followPages, fuel);
            t.requests[i] == url + Query.NextQuery(Cursors(t.pages[..i]))
  {
    WalkSound(fetch, url, followPages, fuel);
  }

  /** The loop and the reference agree in both directions. */
  lemma WalkCharacterized(fetch: string -> Result<Envelope>, url: string, followPages: bool, fuel: nat, t: Trace)
    ensures Walk(fetch, url, followPages, fuel) == t <==> ValidRun(fetch, url, followPages, fuel, t)
  {
    WalkSound(fetch, url, followPages, fuel);
    if ValidRun(fetch, url, followPages, fuel, t) {
      WalkComplete(fetch, url, followPages, fuel, t);
    }
  }

  /** A budget that suffices gives the same run as any larger one: the
      result does not depend on the budget once the loop ends within it. */
  lemma FuelMonotone(fetch: string -> Result<Envelope>, url: string, followPages: bool, fuel: nat, fuel': nat)
    requires fuel <= fuel' && !Walk(fetch, url, followPages, fuel).outcome.OutOfFuel?
    ensures Walk(fetch, url, followPages, fuel') == Walk(fetch, url, followPages, fuel)
  {
    WalkSound(fetch, url, followPages, fuel);
    WalkComplete(fetch, url, followPages, fuel', Walk(fetch, url, followPages, fuel));
  }

  /** A run already under way (`requests`, `pages`, objects `collected`)
      that goes on as `rest`. */
  function Continue(requests: seq<string>, pages: seq<Envelope>, collected: seq<Indicator>, rest: Trace): Trace {
    Trace(requests + rest.requests, pages + rest.pages,
      match rest.outcome
      case Done(objects) => Done(collected + objects)
      case _ => rest.outcome)
  }

  lemma ContinuePrepend(requests: seq<string>, pages: seq<Envelope>, collected: seq<Indicator>,
                        url: string, e: Envelope, rest: Trace)
    ensures Continue(requests, pages, collected, Prepend(url, e, rest))
         == Continue(requests + [url], pages + [e], collected + e.objects, rest)
  {
    assert requests + ([url] + rest.requests) == requests + [url] + rest.requests;
    assert pages + ([e] + rest.pages) == pages + [e] + rest.pages;
    if rest.outcome.Done? {
      assert collected + (e.objects + rest.outcome.indicators) == collected + e.objects + rest.outcome.indicators;
    }
  }

  /** The `while more` loop of `get_cc_indicators`, with the page budget as
      an extra exit: request the current URL, decode, keep the objects,
      recompute `more`, and append the cursor or stop. */
  method FetchAllPages(c: Client, srv: Server, firstUrl: string, followPages: bool, maxPages: nat)
    returns (t: Trace)
    ensures t == Walk(PageSource(c, srv), firstUrl, followPages, maxPages)
  {
    var url := firstUrl;
    var requests: seq<string> := [];
    var pages: seq<Envelope> := [];
    var allIndicators: seq<Indicator> := [];
    var fuel := maxPages;
    var more := true;
    while more
      invariant more ==> Walk(PageSource(c, srv), firstUrl, followPages, maxPages)
                         == Continue(requests, pages, allIndicators, Walk(PageSource(c, srv), url, followPages, fuel))
      invariant !more ==> Walk(PageSource(c, srv), firstUrl, followPages, maxPages) == Trace(requests, pages, Done(allIndicators))
      decreases fuel
    {
      if fuel == 0 {
        t := Trace(requests, pages, OutOfFuel);
        return;
      }
      var fetched := Fetch(c, srv, url);
      if fetched.Err? {
        t := Trace(requests + [url], pages, Failed(fetched.error));
        return;
      }
      var envelope := fetched.value;
      more := followPages && envelope.more.GetOr(false);
      match envelope.next {
        case Some(cursor) =>
          if more {
            ContinuePrepend(requests, pages, allIndicators, url, envelope,
                            Walk(PageSource(c, srv), url + Query.NextParam(cursor), followPages, fuel - 1));
          }
          requests := requests + [url];
          pages := pages + [envelope];
          allIndicators := allIndicators + envelope.objects;
          url := url + Query.NextParam(cursor);
          fuel := fuel - 1;
        case None =>
          requests := requests + [url];
          pages := pages + [envelope];
          allIndicators := allIndicators + envelope.objects;
          more := false;
          break;
      }
    }
    t := Trace(requests, pages, Done(allIndicators));
  }

  /** With `follow_pages` false exactly one request is made, and its page,
      or its error, is the whole result. */
  lemma SinglePageWithoutFollowing(fetch: string -> Result<Envelope>, url: string, fuel: nat)
    requires fuel >= 1
    ensures var t := Walk(fetch, url, false, fuel);
            && t.requests == [url]
            && (fetch(url).Ok? ==> t.outcome == Done(fetch(url).value.objects))
            && (fetch(url).Err? ==> t.outcome == Failed(fetch(url).error))
  {
  }

  /** A page without a cursor ends the loop, whatever its `more` says. */
  lemma StopsWithoutCursor(fetch: string -> Result<Envelope>, url: string, followPages: bool, fuel: nat, e: Envelope)
    requires fuel >= 1 && fetch(url) == Ok(e) && e.next.None?
    ensures Walk(fetch, url, followPages, fuel) == Trace([url], [e], Done(e.objects))
  {
  }

  /** A page whose `more` is absent or false ends the loop even when it
      carries a cursor. */
  lemma StopsWithoutMore(fetch: string -> Result<Envelope>, url: string, followPages: bool, fuel: nat, e: Envelope)
    requires fuel >= 1 && fetch(url) == Ok(e) && e.more != Some(true)
    ensures Walk(fetch, url, followPages, fuel) == Trace([url], [e], Done(e.objects))
  {
  }

  /** Pages served in order at their URLs, each continuing but the last,
      are all fetched: one request per page, the objects concatenated in
      fetch order with nothing dropped or reordered. */
  lemma FollowsServedPages(fetch: string -> Result<Envelope>, url: string, followPages: bool, fuel: nat, pages: seq<Envelope>)
    requires 1 <= |pages| <= fuel
    requires forall i :: 0 <= i < |pages| ==> fetch(PageUrl(url, pages[..i])) == Ok(pages[i])
    requires forall i :: 0 <= i < |pages| - 1 ==> Continues(pages[i], followPages)
    requires !Continues(Last(pages), followPages)
    ensures var t := Walk(fetch, url, followPages, fuel);
            && t.outcome == Done(Flatten(pages))
            && t.requests == seq(|pages|, i requires 0 <= i < |pages| => PageUrl(url, pages[..i]))
  {
    var requests := seq(|pages|, i requires 0 <= i < |pages| => PageUrl(url, pages[..i]));
    WalkComplete(fetch, url, followPages, fuel, Trace(requests, pages, Done(Flatten(pages))));
  }

  /** A failing request or decode after any number of continuing pages makes
      the whole run fail with that error; the pages already fetched are
      discarded. */
  lemma FailureDiscardsPages(fetch: string -> Result<Envelope>, url: string, followPages: bool, fuel: nat,
                             pages: seq<Envelope>, e: TaxiiError)
    requires |pages| < fuel
    requires forall i :: 0 <= i < |pages| ==> fetch(PageUrl(url, pages[..i])) == Ok(pages[i])
    requires forall i :: 0 <= i < |pages| ==> Continues(pages[i], followPages)
    requires fetch(PageUrl(url, pages)) == Err(e)
    ensures Walk(fetch, url, followPages, fuel).outcome == Failed(e)
    ensures |Walk(fetch, url, followPages, fuel).requests| == |pages| + 1
  {
    var requests := seq(|pages| + 1, i requires 0 <= i <= |pages| => PageUrl(url, pages[..i]));
    assert pages[..|pages|] == pages;
    WalkComplete(fetch, url, followPages, fuel, Trace(requests, pages, Failed(e)));
  }

  /** Two pages: the first with `more` true and cursor `tok1`, the second
      with `more` false. Following pages issues two requests, the second
      with `&next=tok1` appended, and returns the first page's objects then
      the second's. */
  lemma TwoPageRetrieval(fetch: string -> Result<Envelope>, url: string, fuel: nat, first: seq<Indicator>, second: seq<Indicator>)
    requires fuel >= 2
    requires fetch(url) == Ok(Envelope(Some(true), Some("tok1"), first))
    requires fetch(url + "&next=tok1") == Ok(Envelope(Some(false), None, second))
    ensures Walk(fetch, url, true, fuel) == Trace([url, url + "&next=tok1"],
              [Envelope(Some(true), Some("tok1"), first), Envelope(Some(false), None, second)],
              Done(first + second))
    ensures |Walk(fetch, url, true, fuel).outcome.indicators| == |first| + |second|
  {
    assert Query.NextParam("tok1") == "&next=tok1";
  }
}
