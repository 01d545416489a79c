# CloudCover TAXII 2.1 client: URL building and pagination, in Dafny

This project models the retrieval core of the CloudCover TAXII 2.1 client
(`src/cctaxiiclient.rs`). It covers:

- the construction of the client and its HTTP Basic `Authorization` header;
- the transport step `request`, which joins the endpoint and maps HTTP
  outcomes onto `TaxiiError`;
- the collection listing `get_collections`;
- `get_cc_indicators`, which picks the API root and the collection, builds
  the filtered query string, and then follows the server's `next` cursor,
  page by page, while the caller asked it to and the server says `more`.

The network is a value, not an effect. A `Server` holds three pure
functions:

- `exchange` says what the HTTP layer reports for an endpoint: a delivered
  response, a status error with its code, or no response at all;
- `decodeCollections` and `decodeEnvelope` stand for the JSON decoder; each
  gives either the decoded value or the decoder's message.

`base64::encode` is a parameter of `New`, so it stays uninterpreted. The
`HashMap` of match filters is a sequence of pairs in whatever order the map
iterates. The source leaves that order unspecified, so the caller supplies
it.

The source loop has no bound on the number of pages. The model gives every
run a page budget (`fuel`) and reports `OutOfFuel` when the budget runs out
before the loop ends. `Pagination.FuelMonotone` shows that once a run ends
within its budget, every larger budget gives the same run, so the result is
the one the unbounded loop gives. `Walk` and its lemmas take the page fetch as a
function from URL to `Result<Envelope>`. `Pagination.PageSource` is the
client's own fetch: `request` followed by decoding the envelope.

Modules, one per concern:

- `Wrappers`: `Option`.
- `TaxiiErrors`: `src/error.rs`, the error variants and `Result`.
- `TaxiiTypes`: the envelope, collection and indicator shapes.
- `Decimal`: the `usize` rendering of `limit`.
- `Query`: paths and query strings; which part of a URL the HTTP client
  sends as the query (after the first `?`, before a `#`, as section 3 of
  RFC 3986 splits a URL); and how a server cuts a query at `&`.
- `CCTaxiiClient`: `new`, `request` and `get_collections`.
- `Pagination`: the cursor loop, both as a recursive function and as the
  source's `while` loop, with a declarative reference (`ValidRun`).
- `Indicators`: `get_cc_indicators` as a whole.

Where the source's own documentation and its code differ, the model
follows the code:

- The documentation of `request` in the `TaxiiClient` trait
  (src/taxiiclient.rs:69-72) speaks of "other non-successful status codes".
  The code maps whatever `ureq` reports as `Error::Status`, and only 401 and
  404 get their own variants. Which statuses the library reports as errors
  is the library's business, so `Exchange` leaves that open.
- The documentation of `get_cc_indicators` (src/cctaxiiclient.rs:204)
  promises `TaxiiCollectionError` when "specified collection ID is
  invalid". The code (src/cctaxiiclient.rs:217-218) uses a supplied id
  verbatim and never checks it, so an unknown id gets whatever the server
  answers. `Indicators.UnknownCollectionNotFound` shows a 404 on the first
  page giving `TaxiiNotFound`, and `Indicators.ResultIsPages` shows that
  `TaxiiCollectionError` arises only when no id is supplied.
- The `TaxiiClient` trait in `src/taxiiclient.rs` declares
  `get_collections(Option<&str>)`, but the implementation takes `&str`. The
  model follows the implementation.

## Model

| member | source | states |
|---|---|---|
| `CCTaxiiClient.New` | src/cctaxiiclient.rs:85-101 | The account is the username unchanged and the base URL is the CloudCover server. The `Authorization` header found by name is `"Basic " + base64(username + ":" + api_key)`, and `Content-Type` and `Accept` are the TAXII 2.1 media type. There are exactly three headers. |
| `CCTaxiiClient.CredentialSplits` | src/cctaxiiclient.rs:86-87 | The encoded credential splits back at its first colon into exactly the username and key if and only if the username has no colon, which is the condition section 2 of RFC 7617 puts on a user-id. The client does not check it. |
| `CCTaxiiClient.SplitCredential` | src/cctaxiiclient.rs:86 | The split is the inverse of the `user:key` join: whenever a split exists, the parts re-join to the input and the first part has no colon. There is no split if and only if the input has no colon. |
| `CCTaxiiClient.Endpoint` | src/cctaxiiclient.rs:104 | The endpoint is the base URL, then a `/`, then the path, each recoverable at its position. |
| `CCTaxiiClient.EndpointInjective` | src/cctaxiiclient.rs:104 | Two paths reach the same endpoint if and only if they are equal. |
| `CCTaxiiClient.Classify` | src/cctaxiiclient.rs:112-122 | Only a delivered response is `Ok`, and it is that response. A status error maps to `TaxiiAuthorizationError` for 401, `TaxiiNotFound` for 404 and `TaxiiGenericError` otherwise, carrying the response unchanged. A failure to execute, and nothing else, gives `TaxiiConnectionError("Request failed to execute")`. Every error is a transport kind. |
| `CCTaxiiClient.Decode` | src/cctaxiiclient.rs:135-137 | Decoding succeeds exactly when the decoder parsed the body. A decoder failure becomes `JsonDeserializationError` with the decoder's message. |
| `CCTaxiiClient.Ids` | src/cctaxiiclient.rs:138 | The result has one identifier per collection, and the i-th is the i-th collection's `id`. |
| `CCTaxiiClient.Request` | src/cctaxiiclient.rs:103-123 | `request(url)` asks `base/url`. It is `Ok` exactly when the response was delivered, and then it is that response. 401, 404 and other status errors give `TaxiiAuthorizationError`, `TaxiiNotFound` and `TaxiiGenericError` with the response. Every error is a transport kind. |
| `CCTaxiiClient.GetCollections` | src/cctaxiiclient.rs:132-139 | The listing of `root` succeeds exactly when `base/root/collections/` delivered a response that decodes as a collection list. Its only errors are transport errors and `JsonDeserializationError`. `GetCollectionsOutcome` gives the value in each case. |
| `CCTaxiiClient.GetCollectionsOutcome` | src/cctaxiiclient.rs:132-139 | `get_collections(root)` asks the endpoint `base/root/collections/`. It returns the transport's error, or the decoder's error as `JsonDeserializationError`, or else one `id` per listed collection in server order with no other field. |
| `Decimal.NatToString` | src/cctaxiiclient.rs:227-228 | The rendered limit is a non-empty string of digits with no leading zero, and it starts with `0` exactly for zero. |
| `Decimal.NatToStringRoundTrip` | src/cctaxiiclient.rs:227-228 | Reading the rendered limit back as a decimal number gives the limit. |
| `Decimal.CanonicalRoundTrip` | src/cctaxiiclient.rs:227-228 | Every digit string without a leading zero is the rendering of the number it denotes, so rendering is onto that set. |
| `Decimal.NatToStringInjective` | src/cctaxiiclient.rs:227-228 | Distinct limits render to distinct texts. |
| `Query.FoldMatches` | src/cctaxiiclient.rs:232-236 | The fold keeps what was accumulated as a prefix and adds at least the nine fixed characters of `&match[` and `]=` per pair. `FoldMatchesAppends` gives the exact text. |
| `Query.QueryString` | src/cctaxiiclient.rs:227-237 | The first page's query is the `limit` parameter, then each of the timestamp and filter parameters introduced by `&`: the parameter list that `QueryParameters` reads back. |
| `Query.FirstPageUrl` | src/cctaxiiclient.rs:228-237 | The first-page URL is the root, then `/collections/<collection>/objects/`, then `?`, then the query string, each recoverable at its position. |
| `Query.FoldMatchesAppends` | src/cctaxiiclient.rs:232-236 | The source's left fold over the filter map appends exactly one `&match[k]=v` per pair, in iteration order, after what was accumulated. |
| `Query.QueryParameters` | src/cctaxiiclient.rs:227-248 | If no timestamp, key, value or cursor contains `&`, the query text as built splits at `&` into exactly these parameters in order: `limit=N` with N defaulting to 1000, then `added_after=t` if given, then `match[k]=v` per pair in iteration order, then `next=c` per cursor appended so far. |
| `Query.UnescapedFilterAddsParameter` | src/cctaxiiclient.rs:232-236 | Values are interpolated without escaping. The query text for a filter value `v1&v2` splits with `v2` as a parameter of its own, so one pair yields two parameters. |
| `Query.UnescapedFilterSent` | src/cctaxiiclient.rs:228-236 | The smuggled parameter reaches the server: when root, collection, key and values hold no `#` (and root and collection no `?`), the query sent for the first page is `limit=N`, `match[k]=v1`, then `v2`. |
| `Query.SentQueryCut` | src/cctaxiiclient.rs:104-112 | For a URL whose path holds no `?` or `#`, the query the HTTP client sends is the text after the `?` up to the first `#`. |
| `Query.FragmentHidesCursors` | src/cctaxiiclient.rs:228-230 | Values are not escaped, so a timestamp `t1#t2` starts a fragment. The server receives only `limit=N` and `added_after=t1`, and never any cursor appended later. |
| `Pagination.Fetch` | src/cctaxiiclient.rs:241-244 | One page fetch succeeds exactly when the response was delivered and decodes as an envelope, and then it is the decoded envelope. A decode failure gives `JsonDeserializationError` with the decoder's message. An undelivered response gives a transport error. |
| `Pagination.Walk` | src/cctaxiiclient.rs:238-253 | A run never decodes more pages than it makes requests, at most one request fails, and it makes no more requests than its budget. |
| `Pagination.WalkSound` | src/cctaxiiclient.rs:238-253 | Every run of the loop is a valid run. Request k goes to the first URL with the first k cursors appended; none is replaced. Every decoded page but the last continues the loop. The run ends in one of three ways: with the concatenated objects when a page stops it, with the error of the one request that failed, or with the budget spent. |
| `Pagination.WalkComplete` | src/cctaxiiclient.rs:238-253 | Every valid run is the loop's run. The server's answers therefore determine the result, and a budget that covers the served pages gives the unbounded loop's result. |
| `Pagination.WalkCharacterized` | src/cctaxiiclient.rs:238-253 | The loop's run equals a trace if and only if that trace is a valid run. |
| `Pagination.FuelMonotone` | src/cctaxiiclient.rs:238-253 | A run that ends within its budget is unchanged by any larger budget. |
| `Pagination.FetchAllPages` | src/cctaxiiclient.rs:238-253 | The source's `while more` loop computes the same run as the recursive definition. The loop keeps the accumulated objects and the growing URL, recomputes `more` from `follow_pages` and the envelope, and breaks on a missing cursor. |
| `Pagination.SinglePageWithoutFollowing` | src/cctaxiiclient.rs:240-251 | With `follow_pages` false, exactly one request is made, and that page's objects, or its error, are the whole result. |
| `Pagination.StopsWithoutCursor` | src/cctaxiiclient.rs:247-251 | A page without `next` ends the loop after that page, whatever `more` says. |
| `Pagination.StopsWithoutMore` | src/cctaxiiclient.rs:246 | A page whose `more` is absent or false ends the loop, even if it carries a cursor. |
| `Pagination.FollowsServedPages` | src/cctaxiiclient.rs:240-253 | N pages served at their URLs, each continuing but the last, take exactly N requests. The result is their objects concatenated in fetch order, with no dedup and no reordering. |
| `Pagination.FailureDiscardsPages` | src/cctaxiiclient.rs:241-244 | A request or decode error after any number of continuing pages makes the whole call fail with that error, and no partial result is returned. |
| `Pagination.TwoPageRetrieval` | src/cctaxiiclient.rs:240-253 | A first page with `more` true and cursor `tok1`, then a page with `more` false, gives two requests. The second is the first URL plus `&next=tok1`, and the result is the first page's objects followed by the second's. |
| `Indicators.SelectCollection` | src/cctaxiiclient.rs:217-226 | A supplied id is taken as is. Without one, the choice succeeds exactly when the listing is non-empty, and then it is the first listed id. A listing error is passed on, and an empty listing gives `TaxiiCollectionError("No collections available")`. |
| `Indicators.GetIndicators` | src/cctaxiiclient.rs:207-254 | Without a supplied id the first request is the listing `root/collections/`, where `root` is chosen as at line 216. The call decodes no more pages than it makes requests, and makes at most the budget's requests plus the listing. `RootSelection` and `ResultIsPages` state the rest. |
| `Indicators.WalkStaysUnder` | src/cctaxiiclient.rs:240-248 | Every request of the loop extends the first-page URL. |
| `Indicators.RootSelection` | src/cctaxiiclient.rs:216 | Every request of the call, the listing included, lies under `<account>/collections/` when `private` is true and under `api/collections/` otherwise. |
| `Indicators.SuppliedCollection` | src/cctaxiiclient.rs:217-218 | A supplied collection id is used verbatim and no listing is requested. The call is exactly the loop from that collection's first-page URL. |
| `Indicators.DefaultCollection` | src/cctaxiiclient.rs:219-226 | Without an id, the first request is `root/collections/`. A listing error ends the call with that error. An empty listing fails with `TaxiiCollectionError` and issues no object request. Otherwise the loop runs on the first listed id. |
| `Indicators.FirstListedCollectionWins` | src/cctaxiiclient.rs:219-225 | When the listing is `["X", "Y"]`, the first object request targets collection `X`. |
| `Indicators.ResultIsPages` | src/cctaxiiclient.rs:217-253 | A successful call returns the concatenated objects of at least one page, and its last page stops the loop. A `TaxiiCollectionError` arises only when no id was supplied, and then no page was fetched. |
| `Indicators.UnknownCollectionNotFound` | src/cctaxiiclient.rs:217-218 | A supplied id is not checked: when the server answers its first page with 404, the call makes that one request and fails with `TaxiiNotFound`, not `TaxiiCollectionError`. |
| `Indicators.ObjectRequestParameters` | src/cctaxiiclient.rs:227-248 | Object request i of a run is the collection's objects endpoint, `?`, and a query text that splits at `&` into the intended parameters, then one `next` per cursor received before that request. The split holds when no value or cursor contains `&`. |
| `Indicators.ObjectRequestSent` | src/cctaxiiclient.rs:227-248 | What the server receives for object request i: the intended parameters, then one `next` per cursor received before that request. This holds when root and collection hold no `?` or `#`, and no value or cursor holds `&` or `#`. |

## Left out

- `Query.SentQuery` models only where the query of a URL starts and ends. The rest of `ureq`'s URL parsing is not modelled: percent-encoding, normalisation, and any rejection of malformed URLs.

- `get_discovery` (src/cctaxiiclient.rs:125-130) is left out. It fetches `taxii2/` and decodes the body, and its error mapping is the one `Classify` and `Decode` already model.
- The `ureq` agent, setting the headers on the wire, and the 30-second timeout (src/cctaxiiclient.rs:105-111) are network I/O. The `Server.exchange` oracle replaces them. The model records which headers the client holds, not that they are sent.
- JSON decoding with serde is a foreign library. The decoders are oracles that either parse or fail with a message.
- `base64::encode` and the UTF-8 encoding of the credential are not modelled. They are a parameter of `New`, with nothing assumed about them.
- The fields of `CCIndicator`, `Discovery`, `Envelope` (the generic one) and the `TaxiiClient` trait of src/taxiiclient.rs are plain data shapes. An indicator is an opaque list of name/value pairs.
- The response payloads inside the errors are an opaque `Response` value.
- `limit` is a `usize` in the source. The model uses an unbounded natural number, because the value is only rendered and never used in arithmetic.
- The loop is unbounded in the source. The model's page budget leaves runs longer than the budget unmodelled; they end in `OutOfFuel`.
- The example program in examples/test-cc-taxii2-client-rs, and `src/lib.rs`, only print and re-export.
- The tests in src/cctaxiiclient.rs:257-307 need live credentials and a live server.
