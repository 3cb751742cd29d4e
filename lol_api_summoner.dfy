/** `SummonerV4` of lol-api/src/endpoints/summoner.rs: four lookups, each one path
    built from `SUMMONER_API_PATH` and handed with the region to the lol-api
    client's `get`. `SUMMONER_API_PATH` is defined in a file that is not part of
    this model, so every path function takes it as the parameter `apiPath`. */
module LolApiSummonerV4 {
  import opened Results
  import opened Strings
  import opened Regions
  import opened Http
  import LolApiRiotApi

  function ByNamePath(apiPath: string, name: string): string {
    apiPath + "/by-name/" + name
  }

  function ByAccountPath(apiPath: string, accountId: string): string {
    apiPath + "/by-account/" + accountId
  }

  function ByPuuidPath(apiPath: string, puuid: string): string {
    apiPath + "/by-puuid/" + puuid
  }

  function BySummonerIdPath(apiPath: string, summonerId: string): string {
    apiPath + "/" + summonerId
  }

  /** Each identifier is inserted as it is, with no escaping: it is the whole text
      after the fixed segment, so it can be read back. */
  lemma IdentifiersVerbatim(apiPath: string, id: string)
    ensures ByNamePath(apiPath, id)[|apiPath| + 9..] == id
    ensures ByAccountPath(apiPath, id)[|apiPath| + 12..] == id
    ensures ByPuuidPath(apiPath, id)[|apiPath| + 10..] == id
    ensures BySummonerIdPath(apiPath, id)[|apiPath| + 1..] == id
    ensures StartsWith(ByNamePath(apiPath, id), apiPath + "/by-name/")
    ensures StartsWith(ByAccountPath(apiPath, id), apiPath + "/by-account/")
    ensures StartsWith(ByPuuidPath(apiPath, id), apiPath + "/by-puuid/")
  {
  }

  /** For identifiers without `/`, the four lookups never share a path. */
  lemma PathsPairwiseDistinct(apiPath: string, a: string, b: string)
    requires '/' !in a && '/' !in b
    ensures ByNamePath(apiPath, a) != ByAccountPath(apiPath, b)
    ensures ByNamePath(apiPath, a) != ByPuuidPath(apiPath, b)
    ensures ByAccountPath(apiPath, a) != ByPuuidPath(apiPath, b)
    ensures ByNamePath(apiPath, a) != BySummonerIdPath(apiPath, b)
    ensures ByAccountPath(apiPath, a) != BySummonerIdPath(apiPath, b)
    ensures ByPuuidPath(apiPath, a) != BySummonerIdPath(apiPath, b)
  {
    KeyedPathsDistinct(apiPath, a, b);
    assert "/by-name/"[8] == '/' && "/by-account/"[11] == '/' && "/by-puuid/"[9] == '/';
    SegmentsDiffer(apiPath, "/by-name/", a, b);
    SegmentsDiffer(apiPath, "/by-account/", a, b);
    SegmentsDiffer(apiPath, "/by-puuid/", a, b);
  }

  /** The three keyed lookups differ in the first letter after `/by-`. */
  lemma KeyedPathsDistinct(apiPath: string, a: string, b: string)
    ensures ByNamePath(apiPath, a) != ByAccountPath(apiPath, b)
    ensures ByNamePath(apiPath, a) != ByPuuidPath(apiPath, b)
    ensures ByAccountPath(apiPath, a) != ByPuuidPath(apiPath, b)
  {
    var n := |apiPath|;
    assert ByNamePath(apiPath, a)[n + 4] == 'n';
    assert ByAccountPath(apiPath, a)[n + 4] == 'a';
    assert ByAccountPath(apiPath, b)[n + 4] == 'a';
    assert ByPuuidPath(apiPath, b)[n + 4] == 'p';
  }

  /** A path whose segment holds a second `/` is not a one-segment path. */
  lemma SegmentsDiffer(apiPath: string, segment: string, a: string, b: string)
    requires |segment| > 0 && '/' in segment[1..] && '/' !in b
    ensures apiPath + segment + a != apiPath + "/" + b
  {
    var k :| 0 <= k < |segment| - 1 && segment[1..][k] == '/';
    if |segment + a| == |"/" + b| {
      assert (segment + a)[k + 1] == '/' && ("/" + b)[k + 1] == b[k];
    }
    assert apiPath + segment + a == apiPath + (segment + a);
    assert apiPath + "/" + b == apiPath + ("/" + b);
    PrefixKeepsDifference(apiPath, segment + a, "/" + b);
  }

  /** `get_by_summoner_name`: the path above, with the region, to `get`. */
  method GetBySummonerName<R>(parsers: Parsers, config: LolApiRiotApi.Config, apiPath: string,
                              region: Route, summonerName: string,
                              network: RequestView -> Exchange, decode: seq<byte> -> Option<R>)
    returns (r: Result<R, FetchError>)
    requires parsers.uri(LolApiRiotApi.UriText(config, region, ByNamePath(apiPath, summonerName), ""))
    requires parsers.headerValue(config.apiKey)
    ensures r == Classify(network(LolApiRiotApi.SentRequest(config, GET, region, ByNamePath(apiPath, summonerName), "")), decode)
  {
    r := LolApiRiotApi.Get(parsers, config, region, ByNamePath(apiPath, summonerName), network, decode);
  }

  /** `get_by_account_id`. */
  method GetByAccountId<R>(parsers: Parsers, config: LolApiRiotApi.Config, apiPath: string,
                           region: Route, encryptedAccountId: string,
                           network: RequestView -> Exchange, decode: seq<byte> -> Option<R>)
    returns (r: Result<R, FetchError>)
    requires parsers.uri(LolApiRiotApi.UriText(config, region, ByAccountPath(apiPath, encryptedAccountId), ""))
    requires parsers.headerValue(config.apiKey)
    ensures r == Classify(network(LolApiRiotApi.SentRequest(config, GET, region, ByAccountPath(apiPath, encryptedAccountId), "")), decode)
  {
    r := LolApiRiotApi.Get(parsers, config, region, ByAccountPath(apiPath, encryptedAccountId), network, decode);
  }

  /** `get_by_puuid`. */
  method GetByPuuid<R>(parsers: Parsers, config: LolApiRiotApi.Config, apiPath: string,
                       region: Route, encryptedPuuid: string,
                       network: RequestView -> Exchange, decode: seq<byte> -> Option<R>)
    returns (r: Result<R, FetchError>)
    requires parsers.uri(LolApiRiotApi.UriText(config, region, ByPuuidPath(apiPath, encryptedPuuid), ""))
    requires parsers.headerValue(config.apiKey)
    ensures r == Classify(network(LolApiRiotApi.SentRequest(config, GET, region, ByPuuidPath(apiPath, encryptedPuuid), "")), decode)
  {
    r := LolApiRiotApi.Get(parsers, config, region, ByPuuidPath(apiPath, encryptedPuuid), network, decode);
  }

  /** `get_by_summoner_id`. */
  method GetBySummonerId<R>(parsers: Parsers, config: LolApiRiotApi.Config, apiPath: string,
                            region: Route, encryptedSummonerId: string,
                            network: RequestView -> Exchange, decode: seq<byte> -> Option<R>)
    returns (r: Result<R, FetchError>)
    requires parsers.uri(LolApiRiotApi.UriText(config, region, BySummonerIdPath(apiPath, encryptedSummonerId), ""))
    requires parsers.headerValue(config.apiKey)
    ensures r == Classify(network(LolApiRiotApi.SentRequest(config, GET, region, BySummonerIdPath(apiPath, encryptedSummonerId), "")), decode)
  {
    r := LolApiRiotApi.Get(parsers, config, region, BySummonerIdPath(apiPath, encryptedSummonerId), network, decode);
  }
}
