/** The fetcher of lol-maintainer/src/fetch.rs, which reads the static
    documentation host. Its URI is `https://<api host>/docs/lol/<path>?<params>`:
    the host is used as it is, with no routing label, and no header is sent. */
module MaintainerFetch {
  import opened Results
  import opened Strings
  import opened Http

  const DefaultApiHost: string := "static.developer.riotgames.com"

  /** `FetchApiConfig` without its client handle. */
  datatype Config = Config(apiHost: string)

  /** `FetchApiConfig::new`: the given host, or `static.developer.riotgames.com`. */
  function NewConfig(apiHost: Option<string>): (c: Config)
    ensures apiHost.None? ==> c.apiHost == "static.developer.riotgames.com"
    ensures apiHost.Some? ==> c.apiHost == apiHost.value
  {
    match apiHost
    case Some(h) => Config(h)
    case None => Config(DefaultApiHost)
  }

  /** The text `forge_uri` formats before parsing it. */
  function UriText(config: Config, path: string, params: string): string {
    "https://" + config.apiHost + "/docs/lol/" + path + "?" + params
  }

  /** The host appears verbatim right after the scheme, followed by `/docs/lol/`,
      the path, `?` and the parameters. */
  lemma UriTextLayout(config: Config, path: string, params: string)
    ensures var text, h := UriText(config, path, params), |config.apiHost|;
      && |text| == 8 + h + 10 + |path| + 1 + |params|
      && text[..8] == "https://"
      && text[8..8 + h] == config.apiHost
      && text[8 + h..8 + h + 10] == "/docs/lol/"
      && text[8 + h + 10..8 + h + 10 + |path|] == path
      && EndsWith(text, "?" + params)
  {
  }

  /** `forge_uri`: the formatted text, if it parses as a URI. */
  function ForgeUri(parsers: Parsers, config: Config, path: string, params: string): (r: Result<string, BuildError>)
    ensures r.Ok? <==> parsers.uri(UriText(config, path, params))
    ensures r.Ok? ==> r.value == UriText(config, path, params)
    ensures r.Err? ==> r.error == InvalidUri
  {
    var text := UriText(config, path, params);
    if parsers.uri(text) then Ok(text) else Err(InvalidUri)
  }

  /** The request that goes on the wire: no headers at all. */
  function SentRequest(config: Config, m: Method, path: string, params: string): (req: RequestView)
    ensures req.httpMethod == m && req.uri == UriText(config, path, params)
    ensures req.headers == map[] && TokenHeader !in req.headers
  {
    RequestView(m, UriText(config, path, params), map[], [])
  }

  /** `build_request`: forge the URI (failing if it does not parse), then create
      an empty request and set its method and URI. */
  method BuildRequest(parsers: Parsers, config: Config, m: Method, path: string, params: string)
    returns (r: Result<Request, BuildError>)
    ensures r.Ok? <==> parsers.uri(UriText(config, path, params))
    ensures r.Err? ==> r.error == InvalidUri
    ensures r.Ok? ==> fresh(r.value) && r.value.View() == SentRequest(config, m, path, params)
  {
    var uri :- ForgeUri(parsers, config, path, params);
    var req := new Request([]);
    req.SetMethod(m);
    req.SetUri(uri);
    return Ok(req);
  }

  /** `get_data`: build a GET (unwrapped, hence the precondition), send it, and
      classify the answer by its status. */
  method GetData<R>(parsers: Parsers, config: Config, path: string, params: string,
                    network: RequestView -> Exchange, decode: seq<byte> -> Option<R>)
    returns (r: Result<R, FetchError>)
    requires parsers.uri(UriText(config, path, params))
    ensures r == Classify(network(SentRequest(config, GET, path, params)), decode)
  {
    var built := BuildRequest(parsers, config, GET, path, params);
    var req := built.value;
    var answer := network(req.View());
    r := Classify(answer, decode);
  }

  /** `get_with_params`: `get_data` with the arguments unchanged. */
  method GetWithParams<R>(parsers: Parsers, config: Config, path: string, params: string,
                          network: RequestView -> Exchange, decode: seq<byte> -> Option<R>)
    returns (r: Result<R, FetchError>)
    requires parsers.uri(UriText(config, path, params))
    ensures r == Classify(network(SentRequest(config, GET, path, params)), decode)
  {
    r := GetData(parsers, config, path, params, network, decode);
  }

  /** `get`: `get_data` with empty parameters. */
  method Get<R>(parsers: Parsers, config: Config, path: string,
                network: RequestView -> Exchange, decode: seq<byte> -> Option<R>)
    returns (r: Result<R, FetchError>)
    requires parsers.uri(UriText(config, path, ""))
    ensures r == Classify(network(SentRequest(config, GET, path, "")), decode)
  {
    r := GetData(parsers, config, path, "", network, decode);
  }

  /** With empty parameters the URI ends in `?`. */
  lemma GetUriEndsInQuestionMark(config: Config, path: string)
    ensures var uri := SentRequest(config, GET, path, "").uri;
      |uri| > 0 && uri[|uri| - 1] == '?'
  {
  }
}
