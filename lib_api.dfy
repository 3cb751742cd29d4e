/** The client of src/lib.rs: an `Api` bound to one platform. Its URI is
    `https://<label>.<api host><path>`, and `client_request` decodes the body
    whatever the status: there is no status check in this revision. */
module ApiLib {
  import opened Results
  import opened Strings
  import opened Regions
  import opened Http

  const DefaultApiHost: string := "api.riotgames.com"

  /** `Api<T>` without its client handle; `platform` is the routing value. */
  datatype Api = Api(apiHost: string, apiKey: string, platform: Route)

  /** `Api::new`: the given host, or `api.riotgames.com` when there is none. */
  function New(apiKey: string, platform: Route, apiHost: Option<string>): (api: Api)
    ensures api.apiKey == apiKey && api.platform == platform
    ensures apiHost.None? ==> api.apiHost == "api.riotgames.com"
    ensures apiHost.Some? ==> api.apiHost == apiHost.value
  {
    var host := match apiHost
      case Some(h) => h
      case None => DefaultApiHost;
    Api(host, apiKey, platform)
  }

  /** `Clone::clone`: the same host, key and platform. */
  function Clone(api: Api): (c: Api)
    ensures c.apiHost == api.apiHost && c.apiKey == api.apiKey && c.platform == api.platform
  {
    Api(api.apiHost, api.apiKey, api.platform)
  }

  /** The text `get_uri` formats before parsing it. */
  function UriText(api: Api, path: string): string {
    "https://" + Host(api.platform, api.apiHost) + path
  }

  lemma UriTextLayout(api: Api, path: string)
    ensures var text := UriText(api, path);
      && |text| == 8 + |Label(api.platform)| + 1 + |api.apiHost| + |path|
      && StartsWith(text, "https://" + Label(api.platform) + ".")
      && EndsWith(text, api.apiHost + path)
  {
    HostIsLabelDotBase(api.platform, api.apiHost);
    assert UriText(api, path) == "https://" + Label(api.platform) + "." + (api.apiHost + path);
  }

  /** `get_uri`: the parsed text; `unwrap` panics when it does not parse. */
  function GetUri(parsers: Parsers, api: Api, path: string): (uri: string)
    requires parsers.uri(UriText(api, path))
    ensures uri == UriText(api, path)
  {
    UriText(api, path)
  }

  /** The request that goes on the wire. */
  function SentRequest(api: Api, m: Method, path: string): (req: RequestView)
    ensures req.httpMethod == m && req.uri == UriText(api, path)
    ensures req.headers.Keys == {TokenHeader} && req.headers[TokenHeader] == api.apiKey
  {
    RequestView(m, UriText(api, path), map[TokenHeader := api.apiKey], [])
  }

  /** A clone sends the very requests the original would. */
  lemma CloneSendsSameRequests(api: Api, m: Method, path: string)
    ensures SentRequest(Clone(api), m, path) == SentRequest(api, m, path)
  {
  }

  /** `build_request`: create an empty request, set the method and URI through
      `method_mut` and `uri_mut`, then insert the token header, failing only when
      the key is not a valid header value. */
  method BuildRequest(parsers: Parsers, api: Api, m: Method, path: string)
    returns (r: Result<Request, BuildError>)
    requires parsers.uri(UriText(api, path))
    ensures r.Ok? <==> parsers.headerValue(api.apiKey)
    ensures r.Err? ==> r.error == InvalidHeaderValue
    ensures r.Ok? ==> fresh(r.value) && r.value.View() == SentRequest(api, m, path)
  {
    var uri := GetUri(parsers, api, path);
    var req := new Request([]);
    req.SetMethod(m);
    req.SetUri(uri);
    if !parsers.headerValue(api.apiKey) {
      return Err(InvalidHeaderValue);
    }
    req.InsertHeader(TokenHeader, api.apiKey);
    return Ok(req);
  }

  /** `client_request`: build a GET (unwrapped, hence the precondition), send it
      and decode the body, whatever the status. */
  method ClientRequest<R>(parsers: Parsers, api: Api, path: string,
                          network: RequestView -> Exchange, decode: seq<byte> -> Option<R>)
    returns (r: Result<R, FetchError>)
    requires parsers.uri(UriText(api, path)) && parsers.headerValue(api.apiKey)
    ensures r == DecodeAnyStatus(network(SentRequest(api, GET, path)), decode)
    ensures r.Err? ==> !r.error.Status?
  {
    var built := BuildRequest(parsers, api, GET, path);
    var req := built.value;
    var answer := network(req.View());
    r := DecodeAnyStatus(answer, decode);
  }
}
