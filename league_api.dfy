/** `LeagueApi` of src/api/league.rs: the six paths of `LeagueV4` (the two files
    format the same text on the same `LEAGUE_PATH`, here the parameter `leaguePath`),
    each handed unchanged to `Api::client_request` of src/lib.rs. */
module LeagueApi {
  import opened Results
  import opened Strings
  import opened Http
  import Queues
  import Tiers
  import Ranks
  import ApiLib
  import LeagueV4

  /** The `entries` path holds exactly three `/`-separated segments after
      `/entries/`: the queue, the tier and the rank, in that order. */
  lemma EntriesSegments(leaguePath: string, q: Queues.Queue, t: Tiers.Tier, k: Ranks.Rank)
    ensures var path := LeagueV4.EntriesPath(leaguePath, q, t, k);
      && StartsWith(path, leaguePath + "/entries/")
      && var tail := path[|leaguePath| + 9..];
      && Count('/', tail) == 2
      && Until('/', tail) == Queues.Value(q)
      && Until('/', tail[|Queues.Value(q)| + 1..]) == Tiers.Value(t)
      && tail[|Queues.Value(q)| + 1 + |Tiers.Value(t)| + 1..] == Ranks.Value(k)
  {
    LeagueV4.EnumStringsHaveNoSlash(q, t, k);
    ThreeSegments(leaguePath + "/entries/", Queues.Value(q), Tiers.Value(t), Ranks.Value(k));
  }

  /** Three `/`-free parts joined by `/` behind a prefix split back into those parts. */
  lemma ThreeSegments(p: string, a: string, b: string, c: string)
    requires '/' !in a && '/' !in b && '/' !in c
    ensures var path := p + a + "/" + b + "/" + c;
      && StartsWith(path, p)
      && var tail := path[|p|..];
      && Count('/', tail) == 2
      && Until('/', tail) == a
      && Until('/', tail[|a| + 1..]) == b
      && tail[|a| + 1 + |b| + 1..] == c
  {
    var tail := a + ['/'] + (b + ['/'] + c);
    assert p + a + "/" + b + "/" + c == p + tail;
    ConcatSlices(p, tail, []);
    TwoSeparators(a, b, c);
  }

  /** `a/b/c` with `/`-free parts has two `/`, and splitting at them gives the parts. */
  lemma TwoSeparators(a: string, b: string, c: string)
    requires '/' !in a && '/' !in b && '/' !in c
    ensures var tail := a + ['/'] + (b + ['/'] + c);
      && Count('/', tail) == 2
      && Until('/', tail) == a
      && Until('/', tail[|a| + 1..]) == b
      && tail[|a| + 1 + |b| + 1..] == c
  {
    var tail := a + ['/'] + (b + ['/'] + c);
    var rest := b + ['/'] + c;
    CountAppend('/', a + ['/'], rest);
    CountAppend('/', a, ['/']);
    CountAppend('/', b + ['/'], c);
    CountAppend('/', b, ['/']);
    UntilAppend('/', a, rest);
    ConcatSlices(a, ['/'], rest);
    UntilAppend('/', b, c);
    ConcatSlices(b, ['/'], c);
  }

  /** `challenger_leagues_by_queue`. */
  method ChallengerLeaguesByQueue<R>(parsers: Parsers, api: ApiLib.Api, leaguePath: string, queue: Queues.Queue,
                                     network: RequestView -> Exchange, decode: seq<byte> -> Option<R>)
    returns (r: Result<R, FetchError>)
    requires parsers.uri(ApiLib.UriText(api, LeagueV4.ChallengerLeaguesPath(leaguePath, queue)))
    requires parsers.headerValue(api.apiKey)
    ensures r == DecodeAnyStatus(network(ApiLib.SentRequest(api, GET, LeagueV4.ChallengerLeaguesPath(leaguePath, queue))), decode)
  {
    r := ApiLib.ClientRequest(parsers, api, LeagueV4.ChallengerLeaguesPath(leaguePath, queue), network, decode);
  }

  /** `grandmaster_leagues_by_queue`. */
  method GrandmasterLeaguesByQueue<R>(parsers: Parsers, api: ApiLib.Api, leaguePath: string, queue: Queues.Queue,
                                      network: RequestView -> Exchange, decode: seq<byte> -> Option<R>)
    returns (r: Result<R, FetchError>)
    requires parsers.uri(ApiLib.UriText(api, LeagueV4.GrandmasterLeaguesPath(leaguePath, queue)))
    requires parsers.headerValue(api.apiKey)
    ensures r == DecodeAnyStatus(network(ApiLib.SentRequest(api, GET, LeagueV4.GrandmasterLeaguesPath(leaguePath, queue))), decode)
  {
    r := ApiLib.ClientRequest(parsers, api, LeagueV4.GrandmasterLeaguesPath(leaguePath, queue), network, decode);
  }

  /** `master_leagues_by_queue`. */
  method MasterLeaguesByQueue<R>(parsers: Parsers, api: ApiLib.Api, leaguePath: string, queue: Queues.Queue,
                                 network: RequestView -> Exchange, decode: seq<byte> -> Option<R>)
    returns (r: Result<R, FetchError>)
    requires parsers.uri(ApiLib.UriText(api, LeagueV4.MasterLeaguesPath(leaguePath, queue)))
    requires parsers.headerValue(api.apiKey)
    ensures r == DecodeAnyStatus(network(ApiLib.SentRequest(api, GET, LeagueV4.MasterLeaguesPath(leaguePath, queue))), decode)
  {
    r := ApiLib.ClientRequest(parsers, api, LeagueV4.MasterLeaguesPath(leaguePath, queue), network, decode);
  }

  /** `leagues_by_id`. */
  method LeaguesById<R>(parsers: Parsers, api: ApiLib.Api, leaguePath: string, leagueId: string,
                        network: RequestView -> Exchange, decode: seq<byte> -> Option<R>)
    returns (r: Result<R, FetchError>)
    requires parsers.uri(ApiLib.UriText(api, LeagueV4.LeaguesByIdPath(leaguePath, leagueId)))
    requires parsers.headerValue(api.apiKey)
    ensures r == DecodeAnyStatus(network(ApiLib.SentRequest(api, GET, LeagueV4.LeaguesByIdPath(leaguePath, leagueId))), decode)
  {
    r := ApiLib.ClientRequest(parsers, api, LeagueV4.LeaguesByIdPath(leaguePath, leagueId), network, decode);
  }

  /** `entries_by_summoner_id`. */
  method EntriesBySummonerId<R>(parsers: Parsers, api: ApiLib.Api, leaguePath: string, summonerId: string,
                                network: RequestView -> Exchange, decode: seq<byte> -> Option<R>)
    returns (r: Result<R, FetchError>)
    requires parsers.uri(ApiLib.UriText(api, LeagueV4.EntriesBySummonerIdPath(leaguePath, summonerId)))
    requires parsers.headerValue(api.apiKey)
    ensures r == DecodeAnyStatus(network(ApiLib.SentRequest(api, GET, LeagueV4.EntriesBySummonerIdPath(leaguePath, summonerId))), decode)
  {
    r := ApiLib.ClientRequest(parsers, api, LeagueV4.EntriesBySummonerIdPath(leaguePath, summonerId), network, decode);
  }

  /** `entries`. */
  method Entries<R>(parsers: Parsers, api: ApiLib.Api, leaguePath: string,
                    queue: Queues.Queue, tier: Tiers.Tier, rank: Ranks.Rank,
                    network: RequestView -> Exchange, decode: seq<byte> -> Option<R>)
    returns (r: Result<R, FetchError>)
    requires parsers.uri(ApiLib.UriText(api, LeagueV4.EntriesPath(leaguePath, queue, tier, rank)))
    requires parsers.headerValue(api.apiKey)
    ensures r == DecodeAnyStatus(network(ApiLib.SentRequest(api, GET, LeagueV4.EntriesPath(leaguePath, queue, tier, rank))), decode)
  {
    r := ApiLib.ClientRequest(parsers, api, LeagueV4.EntriesPath(leaguePath, queue, tier, rank), network, decode);
  }
}
