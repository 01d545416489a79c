/** The client of src/cctaxiiclient.rs: construction, the transport
    step `request` and the collection listing. The network is a `Server`
    value: a pure answer per endpoint, plus the JSON decoders. */
module CCTaxiiClient {
  import opened Wrappers
  import opened TaxiiErrors
  import opened TaxiiTypes
  import Query

  const BaseUrl: string := "https://taxii2.cloudcover.net"
  const MediaType: string := "application/taxii+json;version=2.1"
  const ConnectionFailure: string := "Request failed to execute"

  /** The client state after construction; immutable. */
  datatype Client = Client(baseUrl: string, headers: seq<(string, string)>, account: string)

  /** What the HTTP layer reports for one GET: a response it accepted, a
      response it rejected with a status code, or no response at all. */
  datatype Exchange = Delivered(response: Response) | StatusError(code: int, response: Response) | TransportFailure

  /** The world outside the client: what the server answers at each
      endpoint, and how the JSON decoder reads a response body. */
  datatype Server = Server(
    exchange: string -> Exchange,
    decodeCollections: Response -> Decoded<Collections>,
    decodeEnvelope: Response -> Decoded<Envelope>)

  /** The value of the first header with the given name. */
  function HeaderValue(headers: seq<(string, string)>, name: string): (r: Option<string>)
    ensures r.Some? <==> exists i :: 0 <= i < |headers| && headers[i].0 == name
  {
    if |headers| == 0 then None
    else if headers[0].0 == name then Some(headers[0].1)
    else HeaderValue(headers[1..], name)
  }

  /** `CCTaxiiClient::new`. `base64` stands for `base64::encode` applied to
      the UTF-8 bytes of its argument. */
  function New(username: string, apiKey: string, base64: string -> string): (c: Client)
    ensures c.account == username
    ensures c.baseUrl == BaseUrl
    ensures HeaderValue(c.headers, "Authorization") == Some("Basic " + base64(username + ":" + apiKey))
    ensures HeaderValue(c.headers, "Content-Type") == Some(MediaType)
    ensures HeaderValue(c.headers, "Accept") == Some(MediaType)
    ensures |c.headers| == 3
  {
    var key := username + ":" + apiKey;
    var auth := "Basic " + base64(key);
    assert "Content-Type"[0] != "Authorization"[0] && "Accept"[1] != "Authorization"[1];
    assert "Content-Type"[0] != "Accept"[0];
    var headers := [("Content-Type", MediaType), ("Accept", MediaType), ("Authorization", auth)];
    assert HeaderValue(headers[2..], "Authorization") == Some(auth);
    assert HeaderValue(headers[1..], "Authorization") == Some(auth);
    Client(account := username, baseUrl := BaseUrl, headers := headers)
  }

  /** The user-id/password split of a Basic credential: everything before
      the first colon, and everything after it. */
  function SplitCredential(key: string): (r: Option<(string, string)>)
    ensures r.Some? ==> key == r.value.0 + ":" + r.value.1 && ':' !in r.value.0
    ensures r.None? <==> ':' !in key
  {
    if |key| == 0 then None
    else if key[0] == ':' then Some(("", key[1..]))
    else match SplitCredential(key[1..])
      case None => None
      case Some((user, password)) => Some(([key[0]] + user, password))
  }

  /** The credential the header encodes splits back into the username and
      key exactly when the username has no colon, as section 2 of RFC 7617
      requires of a user-id. */
  lemma {:induction false} CredentialSplits(username: string, apiKey: string)
    ensures SplitCredential(username + ":" + apiKey) == Some((username, apiKey)) <==> ':' !in username
    decreases |username|
  {
    var key := username + ":" + apiKey;
    if |username| == 0 {
      assert key == ":" + apiKey;
      assert key[1..] == apiKey;
    } else {
      assert key[1..] == username[1..] + ":" + apiKey;
      assert username == [username[0]] + username[1..];
      CredentialSplits(username[1..], apiKey);
      if username[0] == ':' {
        assert SplitCredential(key) == Some(("", key[1..]));
      }
    }
  }

  /** The full URL of a request: base address, a slash, then the path. */
  function Endpoint(c: Client, url: string): (e: string)
    ensures |e| == |c.baseUrl| + 1 + |url|
    ensures e[..|c.baseUrl|] == c.baseUrl && e[|c.baseUrl|] == '/' && e[|c.baseUrl| + 1..] == url
  {
    c.baseUrl + "/" + url
  }

  /** Two paths reach the same endpoint only if they are the same path. */
  lemma EndpointInjective(c: Client, u: string, v: string)
    ensures Endpoint(c, u) == Endpoint(c, v) <==> u == v
  {
    if Endpoint(c, u) == Endpoint(c, v) {
      assert u == Endpoint(c, u)[|c.baseUrl| + 1..];
    }
  }

  /** The status-to-error mapping of `request`. */
  function Classify(x: Exchange): (r: Result<Response>)
    ensures r.Ok? <==> x.Delivered?
    ensures r.Ok? ==> r.value == x.response
    ensures r.Err? ==> IsTransportError(r.error)
    ensures x.StatusError? && x.code == 401 ==> r == Err(TaxiiAuthorizationError(x.response))
    ensures x.StatusError? && x.code == 404 ==> r == Err(TaxiiNotFound(x.response))
    ensures x.StatusError? && x.code != 401 && x.code != 404 ==> r == Err(TaxiiGenericError(x.response))
    ensures x.TransportFailure? <==> r == Err(TaxiiConnectionError(ConnectionFailure))
  {
    match x
    case Delivered(response) => Ok(response)
    case StatusError(code, response) =>
      if code == 401 then Err(TaxiiAuthorizationError(response))
      else if code == 404 then Err(TaxiiNotFound(response))
      else Err(TaxiiGenericError(response))
    case TransportFailure => Err(TaxiiConnectionError(ConnectionFailure))
  }

  /** `request`: one GET of `base_url/url`, classified. */
  function Request(c: Client, srv: Server, url: string): (r: Result<Response>)
    ensures var x := srv.exchange(c.baseUrl + "/" + url);
            && (r.Ok? <==> x.Delivered?)
            && (r.Ok? ==> r.value == x.response)
            && (r.Err? ==> IsTransportError(r.error))
            && (x.StatusError? && x.code == 401 ==> r == Err(TaxiiAuthorizationError(x.response)))
            && (x.StatusError? && x.code == 404 ==> r == Err(TaxiiNotFound(x.response)))
            && (x.StatusError? && x.code != 401 && x.code != 404 ==> r == Err(TaxiiGenericError(x.response)))
  {
    Classify(srv.exchange(Endpoint(c, url)))
  }

  /** A decoder failure becomes `JsonDeserializationError` with its message. */
  function Decode<T>(d: Decoded<T>): (r: Result<T>)
    ensures r.Ok? <==> d.Parsed?
    ensures r.Ok? ==> r.value == d.value
    ensures d.Malformed? ==> r == Err(JsonDeserializationError(d.message))
  {
    match d
    case Parsed(v) => Ok(v)
    case Malformed(m) => Err(JsonDeserializationError(m))
  }

  /** The identifiers of a collection list, in the same order. */
  function Ids(cols: seq<Collection>): (ids: seq<string>)
    ensures |ids| == |cols|
    ensures forall i :: 0 <= i < |cols| ==> ids[i] == cols[i].id
  {
    if |cols| == 0 then [] else [cols[0].id] + Ids(cols[1..])
  }

  /** `get_collections`: list the collections under `root` and keep only
      their identifiers. */
  function GetCollections(c: Client, srv: Server, root: string): (r: Result<seq<string>>)
    ensures var x := srv.exchange(c.baseUrl + "/" + root + "/collections/");
            r.Ok? <==> x.Delivered? && srv.decodeCollections(x.response).Parsed?
    ensures r.Err? ==> IsTransportError(r.error) || r.error.JsonDeserializationError?
  {
    assert Endpoint(c, Query.CollectionsPath(root)) == c.baseUrl + "/" + root + "/collections/";
    var response :- Request(c, srv, Query.CollectionsPath(root));
    var collections :- Decode(srv.decodeCollections(response));
    Ok(Ids(collections.collections))
  }

  /** What `get_collections` returns, case by case: the transport's error,
      the decoder's error, or one identifier per listed collection in server
      order with every other field dropped. */
  lemma GetCollectionsOutcome(c: Client, srv: Server, root: string)
    ensures var x := srv.exchange(c.baseUrl + "/" + root + "/collections/");
            var r := GetCollections(c, srv, root);
            && (!x.Delivered? ==> r == Err(Classify(x).error))
            && (x.Delivered? && srv.decodeCollections(x.response).Malformed? ==>
                  r == Err(JsonDeserializationError(srv.decodeCollections(x.response).message)))
            && (x.Delivered? && srv.decodeCollections(x.response).Parsed? ==>
                  var cols := srv.decodeCollections(x.response).value.collections;
                  r.Ok? && |r.value| == |cols| && forall i :: 0 <= i < |cols| ==> r.value[i] == cols[i].id)
  {
    assert Endpoint(c, Query.CollectionsPath(root)) == c.baseUrl + "/" + root + "/collections/";
  }
}
