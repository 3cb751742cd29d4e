/** The client of lol-api/src/riot_api.rs. A request goes to
    `https://<label>.<api host><path>?<params>` with the API key in the
    `X-Riot-Token` header; its answer is decoded on a 2xx status and reported as a
    `Status` error otherwise. The HTTPS client handle of `RustApiConfig` is replaced
    by the `network` parameter of the calls. */
module LolApiRiotApi {
  import opened Results
  import opened Strings
  import opened Regions
  import opened Http

  const DefaultApiHost: string := "api.riotgames.com"

  /** `RustApiConfig` without its client handle. */
  datatype Config = Config(apiHost: string, apiKey: string)

  /** `RustApiConfig::new`: the given host, or `api.riotgames.com` when there is none. */
  function NewConfig(apiKey: string, apiHost: Option<string>): (c: Config)
    ensures c.apiKey == apiKey
    ensures apiHost.None? ==> c.apiHost == "api.riotgames.com"
    ensures apiHost.Some? ==> c.apiHost == apiHost.value
  {
    match apiHost
    case Some(h) => Config(h, apiKey)
    case None => Config(DefaultApiHost, apiKey)
  }

  /** The text `forge_uri` formats before parsing it. */
  function UriText(config: Config, route: Route, path: string, params: string): string {
    "https://" + Host(route, config.apiHost) + path + "?" + params
  }

  /** The URI text reads back, piece by piece: the scheme, the host, the path, then
      `?` and the parameters. */
  lemma UriTextLayout(config: Config, route: Route, path: string, params: string)
    ensures var text, host := UriText(config, route, path, params), Host(route, config.apiHost);
      && |text| == 8 + |Label(route)| + 1 + |config.apiHost| + |path| + 1 + |params|
      && StartsWith(text, "https://")
      && text[8..8 + |host|] == host
      && EndsWith(host, config.apiHost)
      && text[8 + |host|..8 + |host| + |path|] == path
      && EndsWith(text, "?" + params)
  {
    HostLengthAndSuffix(route, config.apiHost);
    UriPieces(Host(route, config.apiHost), path, params);
  }

  /** After the scheme, the text up to the first dot is the routing label. */
  lemma UriTextLabel(config: Config, route: Route, path: string, params: string)
    ensures Until('.', UriText(config, route, path, params)[8..]) == Label(route)
  {
    var host := Host(route, config.apiHost);
    HostLengthAndSuffix(route, config.apiHost);
    HostLabelBeforeFirstDot(route, config.apiHost);
    assert host[|Label(route)|] == '.';
    UntilPrefix('.', host, path + "?" + params);
    UriPieces(host, path, params);
  }

  /** Where the host, the path and the parameters sit in the URI text. */
  lemma UriPieces(host: string, path: string, params: string)
    ensures var text := "https://" + host + path + "?" + params;
      && |text| == 8 + |host| + |path| + 1 + |params|
      && StartsWith(text, "https://")
      && text[8..] == host + (path + "?" + params)
      && text[8..8 + |host|] == host
      && text[8 + |host|..8 + |host| + |path|] == path
      && EndsWith(text, "?" + params)
  {
    var rest := path + "?" + params;
    assert "https://" + host + path + "?" + params == "https://" + host + rest;
    ConcatSlices("https://", host, rest);
    ConcatSlices(path, "?", params);
  }

  /** `forge_uri`: the formatted text, if it parses as a URI. */
  function ForgeUri(parsers: Parsers, config: Config, route: Route, path: string, params: string): (r: Result<string, BuildError>)
    ensures r.Ok? <==> parsers.uri(UriText(config, route, path, params))
    ensures r.Ok? ==> r.value == UriText(config, route, path, params)
    ensures r.Err? ==> r.error == InvalidUri
  {
    var text := UriText(config, route, path, params);
    if parsers.uri(text) then Ok(text) else Err(InvalidUri)
  }

  /** The request that goes on the wire: the method and URI as given, the
      `X-Riot-Token` header set to the API key, an empty body. */
  function SentRequest(config: Config, m: Method, route: Route, path: string, params: string): RequestView {
    RequestView(m, UriText(config, route, path, params), map[TokenHeader := config.apiKey], [])
  }

  /** `build_request`: forge the URI (failing if it does not parse), then create an
      empty request and set its method, its URI and its token header in turn
      (failing if the key is not a valid header value). */
  method BuildRequest(parsers: Parsers, config: Config, m: Method, route: Route, path: string, params: string)
    returns (r: Result<Request, BuildError>)
    ensures r.Ok? <==> parsers.uri(UriText(config, route, path, params)) && parsers.headerValue(config.apiKey)
    ensures r.Err? ==> r.error == if parsers.uri(UriText(config, route, path, params)) then InvalidHeaderValue else InvalidUri
    ensures r.Ok? ==> fresh(r.value) && r.value.View() == SentRequest(config, m, route, path, params)
  {
    var uri :- ForgeUri(parsers, config, route, path, params);
    var req := new Request([]);
    req.SetMethod(m);
    req.SetUri(uri);
    if !parsers.headerValue(config.apiKey) {
      return Err(InvalidHeaderValue);
    }
    req.InsertHeader(TokenHeader, config.apiKey);
    return Ok(req);
  }

  /** `get_data`: build a GET (the source unwraps the result, so a build failure
      is excluded by the precondition), send it, and classify the answer. */
  method GetData<R>(parsers: Parsers, config: Config, route: Route, path: string, params: string,
                    network: RequestView -> Exchange, decode: seq<byte> -> Option<R>)
    returns (r: Result<R, FetchError>)
    requires parsers.uri(UriText(config, route, path, params)) && parsers.headerValue(config.apiKey)
    ensures r == Classify(network(SentRequest(config, GET, route, path, params)), decode)
  {
    var built := BuildRequest(parsers, config, GET, route, path, params);
    var req := built.value;
    var answer := network(req.View());
    r := Classify(answer, decode);
  }

  /** `get_with_params`: `get_data` with the arguments unchanged. */
  method GetWithParams<R>(parsers: Parsers, config: Config, route: Route, path: string, params: string,
                          network: RequestView -> Exchange, decode: seq<byte> -> Option<R>)
    returns (r: Result<R, FetchError>)
    requires parsers.uri(UriText(config, route, path, params)) && parsers.headerValue(config.apiKey)
    ensures r == Classify(network(SentRequest(config, GET, route, path, params)), decode)
  {
    r := GetData(parsers, config, route, path, params, network, decode);
  }

  /** `get`: `get_data` with empty parameters. */
  method Get<R>(parsers: Parsers, config: Config, route: Route, path: string,
                network: RequestView -> Exchange, decode: seq<byte> -> Option<R>)
    returns (r: Result<R, FetchError>)
    requires parsers.uri(UriText(config, route, path, "")) && parsers.headerValue(config.apiKey)
    ensures r == Classify(network(SentRequest(config, GET, route, path, "")), decode)
  {
    r := GetData(parsers, config, route, path, "", network, decode);
  }

  /** With empty parameters the URI still ends in `?`. */
  lemma GetUriEndsInQuestionMark(config: Config, route: Route, path: string)
    ensures var uri := SentRequest(config, GET, route, path, "").uri;
      |uri| > 0 && uri[|uri| - 1] == '?' && uri == "https://" + Host(route, config.apiHost) + path + "?"
  {
  }

  /** The request carries exactly one header, the token. */
  lemma SentRequestCarriesToken(config: Config, m: Method, route: Route, path: string, params: string)
    ensures var req := SentRequest(config, m, route, path, params);
      req.httpMethod == m && req.headers.Keys == {TokenHeader} && req.headers[TokenHeader] == config.apiKey
      && req.body == []
  {
  }
}
