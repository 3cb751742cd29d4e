/** `ChampionMasteryV4` of src/endpoints/champion_mastery.rs: three paths sent through
    the src/riot_api.rs client with the platform unchanged. `CHAMPION_MASTERY_PATH`
    and `SCORE_MASTERY_PATH` are taken to be the values shown in
    src/api/champion_mastery.rs. */
module ChampionMasteryV4 {
  import opened Results
  import opened Strings
  import opened Regions
  import opened Http
  import RiotApi
  import ChampionMasteryApi

  type U32 = ChampionMasteryApi.U32

  function BySummonerIdPath(summonerId: string): string {
    ChampionMasteryApi.ChampionMasteryPath + "/by-summoner/" + summonerId
  }

  function BySummonersChampionPath(summonerId: string, championId: U32): string {
    ChampionMasteryApi.ChampionMasteryPath + "/by-summoner/" + summonerId + "/by-champion/" + Decimal(championId)
  }

  function TotalScorePath(summonerId: string): string {
    ChampionMasteryApi.ScoreMasteryPath + "/by-summoner/" + summonerId
  }

  /** The three paths are those of src/api/champion_mastery.rs. */
  lemma AgreesWithChampionMasteryApi(summonerId: string, championId: U32)
    ensures BySummonerIdPath(summonerId) == ChampionMasteryApi.BySummonerIdPath(summonerId)
    ensures BySummonersChampionPath(summonerId, championId) == ChampionMasteryApi.ByChampionIdPath(summonerId, championId)
    ensures TotalScorePath(summonerId) == ChampionMasteryApi.TotalScorePath(summonerId)
  {
    ChampionMasteryApi.PathLayout(summonerId, championId);
  }

  /** The all-champions path is a strict prefix of the one-champion path, which goes
      on with `/by-champion/` and the decimal champion id. */
  lemma SummonerPathStrictPrefix(summonerId: string, championId: U32)
    ensures StartsWith(BySummonersChampionPath(summonerId, championId), BySummonerIdPath(summonerId))
    ensures BySummonersChampionPath(summonerId, championId)[|BySummonerIdPath(summonerId)|..]
         == "/by-champion/" + Decimal(championId)
  {
    var p := BySummonerIdPath(summonerId);
    assert BySummonersChampionPath(summonerId, championId) == p + ("/by-champion/" + Decimal(championId));
  }

  /** A score path never names a mastery resource. */
  lemma ScoreAndMasteryNeverCoincide(id: string, id': string, championId: U32)
    ensures TotalScorePath(id) != BySummonerIdPath(id')
    ensures TotalScorePath(id) != BySummonersChampionPath(id', championId)
  {
    AgreesWithChampionMasteryApi(id, championId);
    AgreesWithChampionMasteryApi(id', championId);
    ChampionMasteryApi.ScoreAndMasteryNeverCoincide(id, id', "", "", championId);
  }

  /** `by_summoner_id`. */
  method BySummonerId<R>(parsers: Parsers, config: RiotApi.Config, platform: Route, summonerId: string,
                         network: RequestView -> Exchange, decode: seq<byte> -> Option<R>)
    returns (r: Result<R, FetchError>)
    requires parsers.uri(RiotApi.UriText(config, platform, BySummonerIdPath(summonerId)))
    requires parsers.headerValue(config.apiKey)
    ensures r == Classify(network(RiotApi.SentRequest(config, GET, platform, BySummonerIdPath(summonerId))), decode)
  {
    r := RiotApi.Get(parsers, config, platform, BySummonerIdPath(summonerId), network, decode);
  }

  /** `by_summoners_champion`. */
  method BySummonersChampion<R>(parsers: Parsers, config: RiotApi.Config, platform: Route,
                                summonerId: string, championId: U32,
                                network: RequestView -> Exchange, decode: seq<byte> -> Option<R>)
    returns (r: Result<R, FetchError>)
    requires parsers.uri(RiotApi.UriText(config, platform, BySummonersChampionPath(summonerId, championId)))
    requires parsers.headerValue(config.apiKey)
    ensures r == Classify(network(RiotApi.SentRequest(config, GET, platform,
                                                      BySummonersChampionPath(summonerId, championId))), decode)
  {
    r := RiotApi.Get(parsers, config, platform, BySummonersChampionPath(summonerId, championId), network, decode);
  }

  /** `total_score`. */
  method TotalScore<R>(parsers: Parsers, config: RiotApi.Config, platform: Route, summonerId: string,
                       network: RequestView -> Exchange, decode: seq<byte> -> Option<R>)
    returns (r: Result<R, FetchError>)
    requires parsers.uri(RiotApi.UriText(config, platform, TotalScorePath(summonerId)))
    requires parsers.headerValue(config.apiKey)
    ensures r == Classify(network(RiotApi.SentRequest(config, GET, platform, TotalScorePath(summonerId))), decode)
  {
    r := RiotApi.Get(parsers, config, platform, TotalScorePath(summonerId), network, decode);
  }
}
