/** `ChampionMasteryApi` of src/api/champion_mastery.rs: the two path constants,
    `get_champion_mastery_path`, and three lookups sent through `Api::client_request`
    of src/lib.rs. */
module ChampionMasteryApi {
  import opened Results
  import opened Strings
  import opened Http
  import ApiLib

  /** Rust's `u32`. */
  type U32 = n: nat | n < 0x1_0000_0000

  /** `CHAMPION_MASTERY_PATH`. */
  const ChampionMasteryPath: string := "/lol/champion-mastery/v4/champion-masteries"

  /** `SCORE_MASTERY_PATH`. */
  const ScoreMasteryPath: string := "/lol/champion-mastery/v4/scores"

  /** The text the two constants share. */
  const CommonPrefix: string := "/lol/champion-mastery/v4/"

  /** `get_champion_mastery_path(route, param)`. */
  function MasteryPath(route: string, param: string): (p: string)
    ensures StartsWith(p, ChampionMasteryPath) && p[|ChampionMasteryPath|..] == route + param
  {
    ChampionMasteryPath + route + param
  }

  /** The path of `by_summoner_id`. */
  function BySummonerIdPath(summonerId: string): string {
    MasteryPath("/by-summoner/", summonerId)
  }

  /** The path of `by_champion_id`; a `u32` is printed in decimal. */
  function ByChampionIdPath(summonerId: string, championId: U32): string {
    ChampionMasteryPath + "/by-summoner/" + summonerId + "/by-champion/" + Decimal(championId)
  }

  /** The path of `total_score`. */
  function TotalScorePath(summonerId: string): string {
    ScoreMasteryPath + "/by-summoner/" + summonerId
  }

  /** The paths place the summoner id, and then the champion id, right after the
      fixed text. */
  lemma PathLayout(summonerId: string, championId: U32)
    ensures BySummonerIdPath(summonerId) == ChampionMasteryPath + "/by-summoner/" + summonerId
    ensures ByChampionIdPath(summonerId, championId)
         == MasteryPath("/by-summoner/", summonerId + "/by-champion/" + Decimal(championId))
    ensures TotalScorePath(summonerId)[|ScoreMasteryPath| + 13..] == summonerId
  {
    assert ChampionMasteryPath + "/by-summoner/" + summonerId + "/by-champion/" + Decimal(championId)
        == ChampionMasteryPath + "/by-summoner/" + (summonerId + "/by-champion/" + Decimal(championId));
  }

  /** Both constants start with `/lol/champion-mastery/v4/` and then differ, so
      neither is a prefix of the other. */
  lemma ConstantsNotPrefixes()
    ensures StartsWith(ChampionMasteryPath, CommonPrefix) && StartsWith(ScoreMasteryPath, CommonPrefix)
    ensures ChampionMasteryPath[25] == 'c' && ScoreMasteryPath[25] == 's'
    ensures !StartsWith(ChampionMasteryPath, ScoreMasteryPath)
    ensures !StartsWith(ScoreMasteryPath, ChampionMasteryPath)
  {
    assert ChampionMasteryPath[..25] == CommonPrefix;
    assert ScoreMasteryPath[..25] == CommonPrefix;
    assert ScoreMasteryPath[..|ScoreMasteryPath|][25] == 's';
  }

  /** A score path is never a mastery path, whatever the identifiers. */
  lemma ScoreAndMasteryNeverCoincide(id: string, id': string, route: string, param: string, championId: U32)
    ensures TotalScorePath(id) != MasteryPath(route, param)
    ensures TotalScorePath(id) != BySummonerIdPath(id')
    ensures TotalScorePath(id) != ByChampionIdPath(id', championId)
  {
    ConstantsNotPrefixes();
    assert TotalScorePath(id)[25] == 's';
    assert MasteryPath(route, param)[25] == 'c';
    assert ByChampionIdPath(id', championId)[25] == 'c';
  }

  /** For the same summoner, the all-champions path is a strict prefix of the
      one-champion path. */
  lemma SummonerPathStrictPrefix(summonerId: string, championId: U32)
    ensures StartsWith(ByChampionIdPath(summonerId, championId), BySummonerIdPath(summonerId))
    ensures |BySummonerIdPath(summonerId)| < |ByChampionIdPath(summonerId, championId)|
  {
    PathLayout(summonerId, championId);
  }

  /** The one-champion path determines both ids, whatever the summoner id holds:
      the decimal champion id has no `/`, so the last `/` of the path ends the
      fixed `/by-champion` segment. */
  lemma ByChampionIdPathInjective(s: string, c: U32, s': string, c': U32)
    requires ByChampionIdPath(s, c) == ByChampionIdPath(s', c')
    ensures s == s' && c == c'
  {
    var p := ChampionMasteryPath + "/by-summoner/";
    var d, d' := Decimal(c), Decimal(c');
    DecimalHasNo('/', c);
    DecimalHasNo('/', c');
    assert ByChampionIdPath(s, c) == (p + s + "/by-champion") + ['/'] + d;
    assert ByChampionIdPath(s', c') == (p + s' + "/by-champion") + ['/'] + d';
    SplitAtLastSeparator('/', p + s + "/by-champion", d, p + s' + "/by-champion", d');
    SuffixCancel(p + s, p + s', "/by-champion");
    PrefixCancel(p, s, s');
    DecimalInjective(c, c');
  }

  /** `by_summoner_id`: `client_request` with the path unchanged. */
  method BySummonerId<R>(parsers: Parsers, api: ApiLib.Api, summonerId: string,
                         network: RequestView -> Exchange, decode: seq<byte> -> Option<R>)
    returns (r: Result<R, FetchError>)
    requires parsers.uri(ApiLib.UriText(api, BySummonerIdPath(summonerId)))
    requires parsers.headerValue(api.apiKey)
    ensures r == DecodeAnyStatus(network(ApiLib.SentRequest(api, GET, BySummonerIdPath(summonerId))), decode)
  {
    r := ApiLib.ClientRequest(parsers, api, BySummonerIdPath(summonerId), network, decode);
  }

  /** `by_champion_id`. */
  method ByChampionId<R>(parsers: Parsers, api: ApiLib.Api, summonerId: string, championId: U32,
                         network: RequestView -> Exchange, decode: seq<byte> -> Option<R>)
    returns (r: Result<R, FetchError>)
    requires parsers.uri(ApiLib.UriText(api, ByChampionIdPath(summonerId, championId)))
    requires parsers.headerValue(api.apiKey)
    ensures r == DecodeAnyStatus(network(ApiLib.SentRequest(api, GET, ByChampionIdPath(summonerId, championId))), decode)
  {
    r := ApiLib.ClientRequest(parsers, api, ByChampionIdPath(summonerId, championId), network, decode);
  }

  /** `total_score`. */
  method TotalScore<R>(parsers: Parsers, api: ApiLib.Api, summonerId: string,
                       network: RequestView -> Exchange, decode: seq<byte> -> Option<R>)
    returns (r: Result<R, FetchError>)
    requires parsers.uri(ApiLib.UriText(api, TotalScorePath(summonerId)))
    requires parsers.headerValue(api.apiKey)
    ensures r == DecodeAnyStatus(network(ApiLib.SentRequest(api, GET, TotalScorePath(summonerId))), decode)
  {
    r := ApiLib.ClientRequest(parsers, api, TotalScorePath(summonerId), network, decode);
  }
}
