/** `MatchV4` of src/endpoints/match.rs, a client of lol-api's `RiotApi`: the match
    ids of a tournament code. `MATCH_V4_PATH` is defined in a file that is not part
    of this model, so the path takes it as `matchPath`. */
module MatchV4 {
  import opened Results
  import opened Strings
  import opened Regions
  import opened Http
  import LolApiRiotApi

  function TournamentCodeIdsPath(matchPath: string, tournamentCode: string): string {
    matchPath + "/by-tournament-code/" + tournamentCode + "/ids"
  }

  /** The path ends in `/ids`, holds the code verbatim between the fixed segments,
      and so determines the code. */
  lemma TournamentCodeIdsPathLayout(matchPath: string, code: string, code': string)
    ensures var p := TournamentCodeIdsPath(matchPath, code);
      && |p| == |matchPath| + 24 + |code|
      && StartsWith(p, matchPath + "/by-tournament-code/")
      && EndsWith(p, "/ids")
      && p[|matchPath| + 20..|p| - 4] == code
    ensures TournamentCodeIdsPath(matchPath, code) == TournamentCodeIdsPath(matchPath, code') ==> code == code'
  {
    var p, p' := TournamentCodeIdsPath(matchPath, code), TournamentCodeIdsPath(matchPath, code');
    var prefix := matchPath + "/by-tournament-code/";
    assert p == prefix + code + "/ids";
    assert p[|prefix|..|p| - 4] == code;
    assert p'[|prefix|..|p'| - 4] == code';
  }

  /** `get_match_ids_by_tournament_code`: the path, with the region unchanged, to
      `get`. */
  method GetMatchIdsByTournamentCode<R>(parsers: Parsers, config: LolApiRiotApi.Config, matchPath: string,
                                        region: Route, tournamentCode: string,
                                        network: RequestView -> Exchange, decode: seq<byte> -> Option<R>)
    returns (r: Result<R, FetchError>)
    requires parsers.uri(LolApiRiotApi.UriText(config, region, TournamentCodeIdsPath(matchPath, tournamentCode), ""))
    requires parsers.headerValue(config.apiKey)
    ensures r == Classify(network(LolApiRiotApi.SentRequest(config, GET, region,
                                                            TournamentCodeIdsPath(matchPath, tournamentCode), "")), decode)
  {
    r := LolApiRiotApi.Get(parsers, config, region, TournamentCodeIdsPath(matchPath, tournamentCode), network, decode);
  }
}
