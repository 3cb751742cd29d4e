/** `SummonerV4` of src/endpoints/summoner.rs: the same four lookups as lol-api's,
    built on `SUMMONER_API_PATH` and sent through the src/riot_api.rs client with the
    platform unchanged. The constant is taken to be the value shown in
    src/api/summoner.rs. */
module SummonerV4 {
  import opened Results
  import opened Strings
  import opened Regions
  import opened Http
  import SummonerApi
  import LolApiSummonerV4
  import RiotApi

  function ByNamePath(name: string): string {
    SummonerApi.SummonerApiPath + "/by-name/" + name
  }

  function ByAccountPath(accountId: string): string {
    SummonerApi.SummonerApiPath + "/by-account/" + accountId
  }

  function ByPuuidPath(puuid: string): string {
    SummonerApi.SummonerApiPath + "/by-puuid/" + puuid
  }

  function BySummonerIdPath(id: string): string {
    SummonerApi.SummonerApiPath + "/" + id
  }

  /** The four paths are lol-api's templates with the constant filled in, and the
      by-name path is the one `SummonerApi::by_name` was meant to build. */
  lemma AgreesWithOtherRevisions(id: string)
    ensures ByNamePath(id) == LolApiSummonerV4.ByNamePath(SummonerApi.SummonerApiPath, id)
    ensures ByAccountPath(id) == LolApiSummonerV4.ByAccountPath(SummonerApi.SummonerApiPath, id)
    ensures ByPuuidPath(id) == LolApiSummonerV4.ByPuuidPath(SummonerApi.SummonerApiPath, id)
    ensures BySummonerIdPath(id) == LolApiSummonerV4.BySummonerIdPath(SummonerApi.SummonerApiPath, id)
    ensures ByNamePath(id) == SummonerApi.ByNamePathCorrected(id)
    ensures ByNamePath(id) != SummonerApi.ByNamePath(id)
  {
    SummonerApi.ByNamePathMissesSlash(id);
  }

  /** Identifiers are inserted verbatim after the fixed text. */
  lemma IdentifiersVerbatim(id: string)
    ensures ByNamePath(id) == "/lol/summoner/v4/summoners/by-name/" + id
    ensures ByAccountPath(id) == "/lol/summoner/v4/summoners/by-account/" + id
    ensures ByPuuidPath(id) == "/lol/summoner/v4/summoners/by-puuid/" + id
    ensures BySummonerIdPath(id) == "/lol/summoner/v4/summoners/" + id
  {
  }

  /** For `/`-free identifiers the four lookups never share a path. */
  lemma PathsPairwiseDistinct(a: string, b: string)
    requires '/' !in a && '/' !in b
    ensures ByNamePath(a) != ByAccountPath(b)
    ensures ByNamePath(a) != ByPuuidPath(b)
    ensures ByAccountPath(a) != ByPuuidPath(b)
    ensures ByNamePath(a) != BySummonerIdPath(b)
    ensures ByAccountPath(a) != BySummonerIdPath(b)
    ensures ByPuuidPath(a) != BySummonerIdPath(b)
  {
    AgreesWithOtherRevisions(a);
    AgreesWithOtherRevisions(b);
    LolApiSummonerV4.PathsPairwiseDistinct(SummonerApi.SummonerApiPath, a, b);
  }

  /** With the default host, a by-name lookup of `Faker` on the Korean platform goes
      to `https://kr.api.riotgames.com/lol/summoner/v4/summoners/by-name/Faker`. */
  lemma FakerOnKorea(key: string)
    ensures RiotApi.SentRequest(RiotApi.NewConfig(key, None), GET, PlatformRoute(Kr), ByNamePath("Faker")).uri
         == "https://" + "kr." + "api.riotgames.com" + "/lol/summoner/v4/summoners" + "/by-name/" + "Faker"
  {
  }

  /** `by_name`. */
  method GetByName<R>(parsers: Parsers, config: RiotApi.Config, platform: Route, name: string,
                      network: RequestView -> Exchange, decode: seq<byte> -> Option<R>)
    returns (r: Result<R, FetchError>)
    requires parsers.uri(RiotApi.UriText(config, platform, ByNamePath(name)))
    requires parsers.headerValue(config.apiKey)
    ensures r == Classify(network(RiotApi.SentRequest(config, GET, platform, ByNamePath(name))), decode)
  {
    r := RiotApi.Get(parsers, config, platform, ByNamePath(name), network, decode);
  }

  /** `by_account_id`. */
  method GetByAccountId<R>(parsers: Parsers, config: RiotApi.Config, platform: Route, accountId: string,
                           network: RequestView -> Exchange, decode: seq<byte> -> Option<R>)
    returns (r: Result<R, FetchError>)
    requires parsers.uri(RiotApi.UriText(config, platform, ByAccountPath(accountId)))
    requires parsers.headerValue(config.apiKey)
    ensures r == Classify(network(RiotApi.SentRequest(config, GET, platform, ByAccountPath(accountId))), decode)
  {
    r := RiotApi.Get(parsers, config, platform, ByAccountPath(accountId), network, decode);
  }

  /** `by_puuid`. */
  method GetByPuuid<R>(parsers: Parsers, config: RiotApi.Config, platform: Route, puuid: string,
                       network: RequestView -> Exchange, decode: seq<byte> -> Option<R>)
    returns (r: Result<R, FetchError>)
    requires parsers.uri(RiotApi.UriText(config, platform, ByPuuidPath(puuid)))
    requires parsers.headerValue(config.apiKey)
    ensures r == Classify(network(RiotApi.SentRequest(config, GET, platform, ByPuuidPath(puuid))), decode)
  {
    r := RiotApi.Get(parsers, config, platform, ByPuuidPath(puuid), network, decode);
  }

  /** `by_summoner_id`. */
  method GetBySummonerId<R>(parsers: Parsers, config: RiotApi.Config, platform: Route, id: string,
                            network: RequestView -> Exchange, decode: seq<byte> -> Option<R>)
    returns (r: Result<R, FetchError>)
    requires parsers.uri(RiotApi.UriText(config, platform, BySummonerIdPath(id)))
    requires parsers.headerValue(config.apiKey)
    ensures r == Classify(network(RiotApi.SentRequest(config, GET, platform, BySummonerIdPath(id))), decode)
  {
    r := RiotApi.Get(parsers, config, platform, BySummonerIdPath(id), network, decode);
  }
}
