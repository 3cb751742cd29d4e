/** The client of src/riot_api.rs. Unlike lol-api's, its URI is
    `https://<label>.<api host><path>` with no `?`, a URI that does not parse makes
    it panic (`unwrap`), and `get` takes a platform and a path only. */
module RiotApi {
  import opened Results
  import opened Strings
  import opened Regions
  import opened Http

  const DefaultApiHost: string := "api.riotgames.com"

  /** `RustApiConfig` without its client handle. */
  datatype Config = Config(apiHost: string, apiKey: string)

  /** `RustApiConfig::new`: the given host, or `api.riotgames.com` when there is none. */
  function NewConfig(apiKey: string, apiHost: Option<string>): (c: Config)
    ensures c.apiKey == apiKey
    ensures apiHost.None? ==> c.apiHost == "api.riotgames.com"
    ensures apiHost.Some? ==> c.apiHost == apiHost.value
  {
    match apiHost
    case Some(h) => Config(h, apiKey)
    case None => Config(DefaultApiHost, apiKey)
  }

  /** The text `forge_uri` formats before parsing it. */
  function UriText(config: Config, platform: Route, path: string): string {
    "https://" + Host(platform, config.apiHost) + path
  }

  /** The URI text is the scheme, the routed host and the path, in that order. */
  lemma UriTextLayout(config: Config, platform: Route, path: string)
    ensures var text, host := UriText(config, platform, path), Host(platform, config.apiHost);
      && |text| == 8 + |Label(platform)| + 1 + |config.apiHost| + |path|
      && StartsWith(text, "https://" + Label(platform) + ".")
      && text[8..8 + |host|] == host
      && EndsWith(text, path)
  {
    var text, host := UriText(config, platform, path), Host(platform, config.apiHost);
    var n := |Label(platform)| + 1;
    HostLengthAndSuffix(platform, config.apiHost);
    assert text == "https://" + host + path;
    assert text[8..8 + |host|] == host;
    assert text[8..8 + n] == host[..n] == Label(platform) + ".";
    assert text[..8 + n] == "https://" + text[8..8 + n];
  }

  /** No `?` is added: the text holds one only if the host or the path does. */
  lemma UriTextHasNoQuery(config: Config, platform: Route, path: string)
    requires '?' !in config.apiHost && '?' !in path
    ensures '?' !in UriText(config, platform, path)
  {
    HostIsLabelDotBase(platform, config.apiHost);
    var l := Label(platform);
    assert '?' !in l by {
      forall i | 0 <= i < |l| ensures l[i] != '?' {
        assert IsLowerChar(l[i]) || IsDigitChar(l[i]);
      }
    }
    assert UriText(config, platform, path) == "https://" + l + "." + config.apiHost + path;
  }

  /** `forge_uri`: the parsed text; `unwrap` panics when it does not parse. */
  function ForgeUri(parsers: Parsers, config: Config, platform: Route, path: string): (uri: string)
    requires parsers.uri(UriText(config, platform, path))
    ensures uri == UriText(config, platform, path)
  {
    UriText(config, platform, path)
  }

  /** The request that goes on the wire. */
  function SentRequest(config: Config, m: Method, platform: Route, path: string): RequestView {
    RequestView(m, UriText(config, platform, path), map[TokenHeader := config.apiKey], [])
  }

  /** `build_request`: forge the URI, create an empty request, set its method and
      URI, then its token header, failing only when the key is not a valid header
      value. */
  method BuildRequest(parsers: Parsers, config: Config, m: Method, platform: Route, path: string)
    returns (r: Result<Request, BuildError>)
    requires parsers.uri(UriText(config, platform, path))
    ensures r.Ok? <==> parsers.headerValue(config.apiKey)
    ensures r.Err? ==> r.error == InvalidHeaderValue
    ensures r.Ok? ==> fresh(r.value) && r.value.View() == SentRequest(config, m, platform, path)
  {
    var uri := ForgeUri(parsers, config, platform, path);
    var req := new Request([]);
    req.SetMethod(m);
    req.SetUri(uri);
    if !parsers.headerValue(config.apiKey) {
      return Err(InvalidHeaderValue);
    }
    req.InsertHeader(TokenHeader, config.apiKey);
    return Ok(req);
  }

  /** `get`: build a GET (unwrapped, hence the precondition), send it, decode the
      body on a 2xx status and report the status otherwise. */
  method Get<R>(parsers: Parsers, config: Config, platform: Route, path: string,
                network: RequestView -> Exchange, decode: seq<byte> -> Option<R>)
    returns (r: Result<R, FetchError>)
    requires parsers.uri(UriText(config, platform, path)) && parsers.headerValue(config.apiKey)
    ensures r == Classify(network(SentRequest(config, GET, platform, path)), decode)
  {
    var built := BuildRequest(parsers, config, GET, platform, path);
    var req := built.value;
    var answer := network(req.View());
    r := Classify(answer, decode);
  }

  /** The request carries exactly one header, the token. */
  lemma SentRequestCarriesToken(config: Config, m: Method, platform: Route, path: string)
    ensures var req := SentRequest(config, m, platform, path);
      req.httpMethod == m && req.headers.Keys == {TokenHeader} && req.headers[TokenHeader] == config.apiKey
      && req.body == []
  {
  }
}
