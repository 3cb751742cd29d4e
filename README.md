# Riot Games API client (lol-api) in Dafny

This project models the string logic of a small Rust client for the Riot Games
REST API, and proves properties of that model. It covers four parts:

- **Enum codecs.** `Tier`, `Division`, `Rank` and `Queue` each print a canonical
  wire string and parse one back after lowercasing the input. Serde writes the
  printed string and reads through the parser.
- **Host routing.** A region or platform becomes `label.base-host`.
- **Request assembly and response handling** in four client revisions:
  - the `lol-api` crate's `RiotApi`;
  - the older `src/riot_api.rs`;
  - `Api` of `src/lib.rs`;
  - the maintainer tool's fetcher.

  Each revision builds a URI text, then a hyper request step by step: the
  method, the URI and, in three of the four revisions, the `X-Riot-Token`
  header (the maintainer's fetcher sets no header). It then either classifies
  the status (2xx reads and decodes the body, anything else is `Status(code)`
  and the body is never read) or, in `src/lib.rs`, reads and decodes whatever
  arrives.
- **Endpoint paths.** These cover summoner, champion mastery, league and match
  lookups. Each path is a concatenation of a path constant, fixed segments,
  identifiers and enum strings, and each is handed to the client unchanged.

The hyper request is a `class` whose fields `SetMethod`, `SetUri` and
`InsertHeader` update. `build_request` in each revision is a method that
updates a fresh request in that order. Everything else is functions and lemmas.

Code this model cannot see is passed in as parameters:

- URI parsing, header-value validity and JSON decoding: `Parsers` and `decode`;
- the network: `network`, from the request sent to a status and the outcome of
  reading the body;
- path constants defined in files that are not part of this model: `apiPath`,
  `leaguePath` and `matchPath`.

A source `unwrap` that panics on failure becomes a precondition.

Module layout, one module per source file:

| module | models |
|---|---|
| `Tiers` | src/models/tier.rs |
| `Divisions` | src/constants/division.rs |
| `Ranks` | src/constants/rank.rs |
| `Queues` | src/models/queue.rs |
| `Regions` | src/regions.rs |
| `LolApiRiotApi` | lol-api/src/riot_api.rs |
| `RiotApi` | src/riot_api.rs |
| `ApiLib` | src/lib.rs |
| `MaintainerFetch` | lol-maintainer/src/fetch.rs |
| `LolApiSummonerV4` | lol-api/src/endpoints/summoner.rs |
| `SummonerV4` | src/endpoints/summoner.rs |
| `SummonerApi` | src/api/summoner.rs |
| `ChampionMasteryV4` | src/endpoints/champion_mastery.rs |
| `ChampionMasteryApi` | src/api/champion_mastery.rs |
| `LeagueV4` | src/endpoints/league.rs |
| `LeagueApi` | src/api/league.rs |
| `MatchV4` | src/endpoints/match.rs |

`MatchV4` calls `LolApiRiotApi.Get`, not `RiotApi.Get`: only
lol-api/src/endpoints/mod.rs declares the `match` module, so the `crate::RiotApi`
that src/endpoints/match.rs imports is the one of lol-api/src/riot_api.rs.

Three modules are shared support:

- `Results` holds `Option` and `Result`.
- `Strings` holds ASCII lowercasing, counting, prefix splitting and decimal
  printing.
- `Http` holds the request class, status classification and the error type.

## Model

| member | source | states |
|---|---|---|
| Tiers.Value | src/models/tier.rs:23-35 | every tier prints a non-empty string of uppercase letters and `_` |
| Tiers.ValueInjective | src/models/tier.rs:23-35 | the nine printed strings are pairwise distinct |
| Tiers.GrandMasterValue | src/models/tier.rs:32 | `GrandMaster` prints `GRAND_MASTER` |
| Tiers.FromStr | src/models/tier.rs:53-68 | a rejected input yields `InvalidTier` carrying the lowercased input, not the original |
| Tiers.LowerValue | src/models/tier.rs:25-63 | the lowercased printed strings are exactly the nine literals the parser matches |
| Tiers.FromStrSpec | src/models/tier.rs:53-68 | parsing gives tier `t` if and only if the lowercased input equals the lowercased printing of `t` |
| Tiers.FromStrAcceptsOnlyTiers | src/models/tier.rs:54-66 | parsing succeeds if and only if the input is some tier's string up to case |
| Tiers.CaseInsensitive | src/models/tier.rs:54 | inputs equal after lowercasing parse alike |
| Tiers.FromStrOfLower | src/models/tier.rs:54 | parsing the lowercased input gives the same result |
| Tiers.RoundTrip | src/models/tier.rs:23-68 | parsing a tier's printed string gives back that tier |
| Tiers.GrandmasterRejected | src/models/tier.rs:62-66 | `grandmaster` and `GrandMaster` (without the underscore) are rejected with payload `grandmaster` |
| Tiers.Display | src/models/tier.rs:38-42 | `Display` writes `value()`, and that text parses back to the tier |
| Tiers.Debug | src/models/tier.rs:44-48 | `Debug` writes the same text as `Display` |
| Tiers.Serialize | src/models/tier.rs:97-103 | serialising writes the printed string |
| Tiers.Deserialize | src/models/tier.rs:80-87 | deserialising succeeds exactly when parsing does, with the parsed tier, and otherwise reports `invalid tier: ` plus the lowercased input |
| Tiers.SerdeRoundTrip | src/models/tier.rs:80-103 | deserialising a serialised tier gives it back |
| Divisions.Value | src/constants/division.rs:17-25 | each division prints one to three characters from `I`, `V`, `X` |
| Divisions.Digit | src/constants/division.rs:50-54 | the digit alias of each division |
| Divisions.ValueInjective | src/constants/division.rs:17-25 | the five printed strings are pairwise distinct |
| Divisions.FromStr | src/constants/division.rs:43-59 | a rejected input yields `InvalidDivision` carrying the lowercased input |
| Divisions.LowerValue | src/constants/division.rs:19-49 | the lowercased numerals are the five numeral literals the parser matches |
| Divisions.FromStrSpec | src/constants/division.rs:43-59 | parsing gives `d` if and only if the lowercased input is `d`'s numeral in lowercase or `d`'s digit |
| Divisions.FromStrAcceptsOnlyDivisions | src/constants/division.rs:44-57 | parsing succeeds if and only if the input is some division's numeral (any case) or digit |
| Divisions.CaseInsensitive | src/constants/division.rs:44 | inputs equal after lowercasing parse alike |
| Divisions.RoundTrip | src/constants/division.rs:17-49 | parsing a division's numeral gives back that division |
| Divisions.DigitAlias | src/constants/division.rs:45-54 | digits `1`..`5` parse to the same division as the matching numeral |
| Divisions.CanonicalIdempotent | src/constants/division.rs:17-54 | re-parsing the printing of any accepted input gives the same result |
| Divisions.OutOfRangeRejected | src/constants/division.rs:55-57 | `0`, `6` and `VI` are rejected, the last with payload `vi` |
| Divisions.Display | src/constants/division.rs:28-32 | `Display` writes `value()`, and that text parses back |
| Divisions.Debug | src/constants/division.rs:34-38 | `Debug` writes the same text as `Display` |
| Divisions.Serialize | src/constants/division.rs:88-95 | serialising writes the printed numeral |
| Divisions.Deserialize | src/constants/division.rs:71-78 | deserialising succeeds exactly when parsing does, and otherwise reports the error message for the lowercased input |
| Divisions.SerdeRoundTrip | src/constants/division.rs:71-95 | deserialising a serialised division gives it back |
| Ranks.Value | src/constants/rank.rs:17-25 | each rank prints one to three characters from `I`, `V`, `X` |
| Ranks.Digit | src/constants/rank.rs:50-54 | the digit alias of each rank |
| Ranks.ValueInjective | src/constants/rank.rs:17-25 | the five printed strings are pairwise distinct |
| Ranks.FromStr | src/constants/rank.rs:43-59 | a rejected input yields `InvalidRank` carrying the lowercased input |
| Ranks.LowerValue | src/constants/rank.rs:19-49 | the lowercased numerals are the five numeral literals the parser matches |
| Ranks.FromStrSpec | src/constants/rank.rs:43-59 | parsing gives `k` if and only if the lowercased input is `k`'s numeral in lowercase or `k`'s digit |
| Ranks.FromStrAcceptsOnlyRanks | src/constants/rank.rs:44-57 | parsing succeeds if and only if the input is some rank's numeral (any case) or digit |
| Ranks.CaseInsensitive | src/constants/rank.rs:44 | inputs equal after lowercasing parse alike |
| Ranks.RoundTrip | src/constants/rank.rs:17-49 | parsing a rank's numeral gives back that rank |
| Ranks.DigitAlias | src/constants/rank.rs:50-54 | digits `1`..`5` alias to `I`..`V` |
| Ranks.CanonicalIdempotent | src/constants/rank.rs:17-54 | re-parsing the printing of any accepted input gives the same result |
| Ranks.OutOfRangeRejected | src/constants/rank.rs:55-57 | `0`, `6` and `VI` are rejected, the last with payload `vi` |
| Ranks.Display | src/constants/rank.rs:28-32 | `Display` writes `value()`, and that text parses back |
| Ranks.Debug | src/constants/rank.rs:34-38 | `Debug` writes the same text as `Display` |
| Ranks.Serialize | src/constants/rank.rs:88-95 | serialising writes the printed numeral |
| Ranks.Deserialize | src/constants/rank.rs:71-78 | deserialising succeeds exactly when parsing does, and otherwise reports the error message for the lowercased input |
| Ranks.SerdeRoundTrip | src/constants/rank.rs:71-95 | deserialising a serialised rank gives it back |
| Queues.Value | src/models/queue.rs:16-23 | every queue prints a string of ten or more characters that starts with `RANKED_` and holds no `/` |
| Queues.ValueInjective | src/models/queue.rs:16-23 | the four printed strings are pairwise distinct |
| Queues.SoloValueHasLowerX | src/models/queue.rs:18-21 | `RANKED_SOLO_5x5` has a lowercase `x` at index 13; the other three have no lowercase letter |
| Queues.FromStr | src/models/queue.rs:41-51 | as written: a rejected input yields `InvalidQueue` carrying the lowercased input |
| Queues.FromStrAlwaysFails | src/models/queue.rs:42-50 | as written, every input is rejected, because a lowercased string never equals a literal with uppercase letters |
| Queues.NoRoundTrip | src/models/queue.rs:16-50 | as written, parsing a queue's own printed string fails |
| Queues.Display | src/models/queue.rs:26-30 | `Display` writes `value()` |
| Queues.Debug | src/models/queue.rs:32-36 | `Debug` writes the same text as `Display` |
| Queues.Serialize | src/models/queue.rs:80-86 | serialising writes the printed string |
| Queues.Deserialize | src/models/queue.rs:63-70 | deserialising succeeds exactly when parsing does, and otherwise reports `invalid queue: ` plus the lowercased input |
| Queues.DeserializeRejectsAll | src/models/queue.rs:63-95 | as written, deserialising rejects every string |
| Queues.FromStrCorrected | src/models/queue.rs:41-51 | corrected parser (lowercase literals): a rejected input still yields `InvalidQueue` of the lowercased input |
| Queues.LowerValue | src/models/queue.rs:16-23 | the lowercased printed strings are the literals the corrected parser matches |
| Queues.FromStrCorrectedSpec | src/models/queue.rs:41-51 | the corrected parser gives `q` if and only if the input equals `q`'s string up to case |
| Queues.CorrectedRoundTrip | src/models/queue.rs:16-50 | with the correction, parsing a queue's printed string gives it back |
| Queues.DeserializeCorrected | src/models/queue.rs:63-70 | deserialising through the corrected parser succeeds exactly when that parser does, with that parser's queue, and otherwise fails with `invalid queue: ` and the lowercased input |
| Queues.CorrectedSerdeRoundTrip | src/models/queue.rs:63-86 | with the correction, serde round-trips every queue |
| Regions.Label | src/regions.rs:10-44 | every label has two or more lowercase letters or digits and no `.` |
| Regions.HostIsLabelDotBase | src/regions.rs:8-46 | the host of every region and platform is its label, `.`, then the base host; the match is total |
| Regions.LabelInjective | src/regions.rs:10-44 | the fourteen labels are pairwise distinct |
| Regions.HostInjective | src/regions.rs:8-46 | for a fixed base host, distinct routes get distinct hosts |
| Regions.HostLabelBeforeFirstDot | src/regions.rs:10-44 | the text before the first `.` of a host is exactly the label, whatever the base |
| Regions.HostLengthAndSuffix | src/regions.rs:10-44 | a host has length label + 1 + base, starts with `label.` and ends with the base |
| Http.Request.constructor | lol-api/src/riot_api.rs:70 | `Request::new(Body::empty())`: method GET, URI `/`, no headers, the given body |
| Http.Request.View | lol-api/src/riot_api.rs:70-75 | the observable method, URI, headers and body of a request |
| Http.Request.SetMethod | lol-api/src/riot_api.rs:71 | `*req.method_mut() = m` changes the method only |
| Http.Request.SetUri | lol-api/src/riot_api.rs:72 | `*req.uri_mut() = uri` changes the URI only |
| Http.Request.InsertHeader | lol-api/src/riot_api.rs:74-75 | `headers_mut().insert` sets one header and changes nothing else |
| Http.Classify | lol-api/src/riot_api.rs:134-153 | `Http` exactly when no response arrives or a 2xx body read fails; `Status(code)` exactly on a non-2xx status, whether or not its body could be read; on 2xx the decoded body, or `Json` exactly when decoding fails |
| Http.FailureStatusSkipsDecode | lol-api/src/riot_api.rs:139-140 | on a non-2xx status the body, even one whose read fails, and the decoder do not matter |
| Http.StatusBoundaries | lol-api/src/riot_api.rs:139-140 | 200 and 299 are successes; 199, 300, 404 and 500 are not; a 503 whose body read fails is still `Status(503)` |
| Http.DecodeAnyStatus | src/lib.rs:95-105 | without a status check: `Http` exactly when no response arrives or the body read fails, on any status; otherwise the decoded body or `Json`; never a `Status` error |
| Http.DecodeAnyStatusIgnoresStatus | src/lib.rs:95-105 | the result does not depend on the status; a 404 with a decodable body is taken as data; a 503 whose body read fails gives `Http` where `Classify` gives `Status(503)` |
| LolApiRiotApi.NewConfig | lol-api/src/riot_api.rs:163-177 | the host is `api.riotgames.com` when none is given, else the given host; the key is kept |
| LolApiRiotApi.UriTextLayout | lol-api/src/riot_api.rs:88-93 | the URI text is `https://`, the routed host (ending in the API host), the path, `?` and the params, at the stated positions |
| LolApiRiotApi.UriTextLabel | lol-api/src/riot_api.rs:89-90 | after `https://`, the text up to the first `.` is the routing label, whatever the API host |
| LolApiRiotApi.ForgeUri | lol-api/src/riot_api.rs:82-97 | succeeds exactly when the text parses, with that text; otherwise `InvalidUri` |
| LolApiRiotApi.BuildRequest | lol-api/src/riot_api.rs:60-80 | succeeds exactly when URI and key are valid; the failure names which; on success the fresh request has the given method, the URI and the token header only |
| LolApiRiotApi.GetData | lol-api/src/riot_api.rs:120-153 | sends the GET built from region, path and params, then classifies the answer (a build failure panics: precondition) |
| LolApiRiotApi.GetWithParams | lol-api/src/riot_api.rs:99-110 | forwards region, path and params unchanged to `get_data` |
| LolApiRiotApi.Get | lol-api/src/riot_api.rs:112-118 | `get_data` with empty params |
| LolApiRiotApi.GetUriEndsInQuestionMark | lol-api/src/riot_api.rs:89-117 | a `get` URI always ends in `?` |
| LolApiRiotApi.SentRequestCarriesToken | lol-api/src/riot_api.rs:70-75 | the request sent has exactly one header, `X-Riot-Token` set to the key, and an empty body |
| RiotApi.NewConfig | src/riot_api.rs:104-119 | the host is `api.riotgames.com` when none is given, else the given host |
| RiotApi.UriTextLayout | src/riot_api.rs:63-64 | the URI text is `https://`, the routed host and the path, at the stated positions |
| RiotApi.UriTextHasNoQuery | src/riot_api.rs:64 | no `?` is added: the text holds none when the host and the path hold none |
| RiotApi.ForgeUri | src/riot_api.rs:63-67 | the parsed text; a text that does not parse panics (precondition) |
| RiotApi.BuildRequest | src/riot_api.rs:42-61 | fails only, and exactly, on an invalid key; on success the request has the given method, the URI and the token header |
| RiotApi.Get | src/riot_api.rs:69-95 | sends the GET and classifies the answer: non-2xx gives `Status`, 2xx decodes |
| RiotApi.SentRequestCarriesToken | src/riot_api.rs:51-56 | the request has exactly the token header, set to the key |
| ApiLib.New | src/lib.rs:33-50 | the host is `api.riotgames.com` when none is given, else the given host; key and platform are kept |
| ApiLib.Clone | src/lib.rs:109-121 | a clone has the same host, key and platform |
| ApiLib.CloneSendsSameRequests | src/lib.rs:109-121 | a clone sends the same request for every method and path |
| ApiLib.UriTextLayout | src/lib.rs:83-84 | the URI text is `https://`, the platform's host and the path |
| ApiLib.GetUri | src/lib.rs:83-87 | the parsed text; a text that does not parse panics (precondition) |
| ApiLib.SentRequest | src/lib.rs:71-76 | the request has the given method, the URI and exactly the token header set to the key |
| ApiLib.BuildRequest | src/lib.rs:67-81 | fails only, and exactly, on an invalid key; on success the fresh request is the one above |
| ApiLib.ClientRequest | src/lib.rs:89-106 | sends a GET and decodes the answer whatever its status; never a `Status` error |
| MaintainerFetch.NewConfig | lol-maintainer/src/fetch.rs:118-133 | the host is `static.developer.riotgames.com` when none is given, else the given host |
| MaintainerFetch.UriTextLayout | lol-maintainer/src/fetch.rs:50-55 | the URI text is `https://`, the host verbatim (no routing), `/docs/lol/`, the path, `?` and the params |
| MaintainerFetch.ForgeUri | lol-maintainer/src/fetch.rs:45-59 | succeeds exactly when the text parses; otherwise `InvalidUri` |
| MaintainerFetch.SentRequest | lol-maintainer/src/fetch.rs:36-38 | the request has the given method and URI and no header at all |
| MaintainerFetch.BuildRequest | lol-maintainer/src/fetch.rs:27-43 | fails exactly when the URI does not parse; sets no header |
| MaintainerFetch.GetData | lol-maintainer/src/fetch.rs:79-110 | sends the GET and classifies the answer (a build failure panics: precondition) |
| MaintainerFetch.GetWithParams | lol-maintainer/src/fetch.rs:61-70 | forwards path and params to `get_data` |
| MaintainerFetch.Get | lol-maintainer/src/fetch.rs:72-77 | `get_data` with empty params |
| MaintainerFetch.GetUriEndsInQuestionMark | lol-maintainer/src/fetch.rs:51-76 | a `get` URI always ends in `?` |
| LolApiSummonerV4.IdentifiersVerbatim | lol-api/src/endpoints/summoner.rs:30-71 | each identifier is the whole text after its fixed segment, unescaped |
| LolApiSummonerV4.PathsPairwiseDistinct | lol-api/src/endpoints/summoner.rs:30-71 | for `/`-free identifiers the four paths are pairwise distinct |
| LolApiSummonerV4.KeyedPathsDistinct | lol-api/src/endpoints/summoner.rs:30-58 | the by-name, by-account and by-puuid paths never coincide, whatever the identifiers |
| LolApiSummonerV4.GetBySummonerName | lol-api/src/endpoints/summoner.rs:25-32 | sends a GET for the by-name path to the region unchanged |
| LolApiSummonerV4.GetByAccountId | lol-api/src/endpoints/summoner.rs:39-46 | sends a GET for the by-account path to the region unchanged |
| LolApiSummonerV4.GetByPuuid | lol-api/src/endpoints/summoner.rs:53-60 | sends a GET for the by-puuid path to the region unchanged |
| LolApiSummonerV4.GetBySummonerId | lol-api/src/endpoints/summoner.rs:66-73 | sends a GET for the by-id path to the region unchanged |
| SummonerV4.AgreesWithOtherRevisions | src/endpoints/summoner.rs:22-49 | the four paths are lol-api's with the constant filled in; the by-name path is the one src/api/summoner.rs meant to build, not the one it builds |
| SummonerV4.IdentifiersVerbatim | src/endpoints/summoner.rs:22-49 | each path is the fixed text followed by the identifier verbatim |
| SummonerV4.PathsPairwiseDistinct | src/endpoints/summoner.rs:22-49 | for `/`-free identifiers the four paths are pairwise distinct |
| SummonerV4.FakerOnKorea | src/endpoints/summoner.rs:22-23 | with the default host, `Faker` on the Korean platform goes to `https://kr.api.riotgames.com/lol/summoner/v4/summoners/by-name/Faker` |
| SummonerV4.GetByName | src/endpoints/summoner.rs:17-24 | sends a GET for the by-name path to the platform unchanged |
| SummonerV4.GetByAccountId | src/endpoints/summoner.rs:26-33 | sends a GET for the by-account path |
| SummonerV4.GetByPuuid | src/endpoints/summoner.rs:35-42 | sends a GET for the by-puuid path |
| SummonerV4.GetBySummonerId | src/endpoints/summoner.rs:44-51 | sends a GET for the by-id path |
| SummonerApi.ByNamePathLayout | src/api/summoner.rs:9-17 | the as-written by-name path has length 34 + name, ends with the name and starts with `/lol/summoner/v4/summoners/by-name` |
| SummonerApi.ByNamePathFaker | src/api/summoner.rs:17 | `Faker` gives `/lol/summoner/v4/summoners/by-nameFaker`, not the intended path |
| SummonerApi.ByNamePathMissesSlash | src/api/summoner.rs:17 | the as-written path never equals the intended one for the same name, and equals an intended path exactly when the name starts with `/` |
| SummonerApi.ByNamePathCorrectedLayout | src/api/summoner.rs:9-17 | the corrected path holds the name after its first 35 characters, so distinct names give distinct paths |
| SummonerApi.SummonerRequest | src/api/summoner.rs:29-30 | `Client::get(url)` is a GET of that URL with no token header and an empty body |
| SummonerApi.GetSummoner | src/api/summoner.rs:24-40 | sends the bare GET and decodes whatever arrives; never a `Status` error |
| SummonerApi.GetSummonerIgnoresStatus | src/api/summoner.rs:29-39 | a 404 answer with a decodable body is returned as a summoner, as a 200 would be |
| SummonerApi.ByName | src/api/summoner.rs:16-21 | fetches the URL made from the as-written by-name path |
| ChampionMasteryApi.MasteryPath | src/api/champion_mastery.rs:68-70 | the mastery constant followed by route and param |
| ChampionMasteryApi.PathLayout | src/api/champion_mastery.rs:26-46 | `by_summoner_id` is `get_champion_mastery_path("/by-summoner/", id)`; `by_champion_id` is that helper with `id/by-champion/<decimal>`; the score path holds the id after `/by-summoner/` |
| ChampionMasteryApi.ConstantsNotPrefixes | src/api/champion_mastery.rs:65-66 | the constants share `/lol/champion-mastery/v4/` and then differ, so neither is a prefix of the other |
| ChampionMasteryApi.ScoreAndMasteryNeverCoincide | src/api/champion_mastery.rs:26-66 | no score path equals any mastery path |
| ChampionMasteryApi.SummonerPathStrictPrefix | src/api/champion_mastery.rs:26-38 | a summoner's all-champions path is a strict prefix of its one-champion path |
| ChampionMasteryApi.ByChampionIdPathInjective | src/api/champion_mastery.rs:35-38 | the one-champion path determines both the summoner id, whatever text it holds, and the champion id |
| ChampionMasteryApi.BySummonerId | src/api/champion_mastery.rs:22-28 | hands the path unchanged to `client_request` |
| ChampionMasteryApi.ByChampionId | src/api/champion_mastery.rs:30-40 | hands the path unchanged to `client_request` |
| ChampionMasteryApi.TotalScore | src/api/champion_mastery.rs:42-49 | hands the path unchanged to `client_request` |
| ChampionMasteryV4.AgreesWithChampionMasteryApi | src/endpoints/champion_mastery.rs:21-43 | the three paths are those of src/api/champion_mastery.rs |
| ChampionMasteryV4.SummonerPathStrictPrefix | src/endpoints/champion_mastery.rs:21-34 | the `by_summoner_id` path is a strict prefix of the `by_summoners_champion` path, followed by `/by-champion/` and the decimal id |
| ChampionMasteryV4.ScoreAndMasteryNeverCoincide | src/endpoints/champion_mastery.rs:21-43 | the score path never equals a mastery path |
| ChampionMasteryV4.BySummonerId | src/endpoints/champion_mastery.rs:16-23 | sends a GET for the path to the platform unchanged |
| ChampionMasteryV4.BySummonersChampion | src/endpoints/champion_mastery.rs:25-36 | sends a GET for the path to the platform unchanged |
| ChampionMasteryV4.TotalScore | src/endpoints/champion_mastery.rs:38-46 | sends a GET for the path to the platform unchanged |
| LeagueV4.ByQueuePathsDistinct | src/endpoints/league.rs:25-43 | the challenger, grandmaster and master paths never coincide, whatever the queues |
| LeagueV4.ByQueuePathNamesQueue | src/endpoints/league.rs:25-43 | a by-queue path ends with the queue's string and determines the queue |
| LeagueV4.EnumStringsHaveNoSlash | src/models/queue.rs:18-21 | no queue, tier or rank string holds a `/` |
| LeagueV4.EntriesInjective | src/endpoints/league.rs:69 | the `entries` path determines queue, tier and rank |
| LeagueV4.EntriesNotBySummoner | src/endpoints/league.rs:58-69 | an `entries` path is never an `entries_by_summoner_id` path |
| LeagueV4.IdentifiersVerbatim | src/endpoints/league.rs:49-58 | the league id and the summoner id are the whole text after their fixed segments |
| LeagueApi.EntriesSegments | src/api/league.rs:69 | after `/entries/` the path has exactly two `/`, and the three segments are the queue, tier and rank strings in order |
| LeagueApi.ChallengerLeaguesByQueue | src/api/league.rs:21-28 | hands the challenger path unchanged to `client_request` |
| LeagueApi.GrandmasterLeaguesByQueue | src/api/league.rs:30-37 | hands the grandmaster path unchanged to `client_request` |
| LeagueApi.MasterLeaguesByQueue | src/api/league.rs:39-46 | hands the master path unchanged to `client_request` |
| LeagueApi.LeaguesById | src/api/league.rs:48-52 | hands the by-id path unchanged to `client_request` |
| LeagueApi.EntriesBySummonerId | src/api/league.rs:54-61 | hands the by-summoner path unchanged to `client_request` |
| LeagueApi.Entries | src/api/league.rs:63-72 | hands the entries path unchanged to `client_request` |
| MatchV4.TournamentCodeIdsPathLayout | src/endpoints/match.rs:34-37 | the path ends in `/ids`, holds the code verbatim between the fixed segments, and determines it |
| MatchV4.GetMatchIdsByTournamentCode | src/endpoints/match.rs:29-40 | sends a GET for the path to the region unchanged |
| Strings.Lower | src/models/tier.rs:54 | lowercasing keeps the length and maps each character by the ASCII case map |
| Strings.Decimal | src/api/champion_mastery.rs:38 | a number prints as a non-empty digit string without a leading zero |
| Strings.DecimalRoundTrip | src/api/champion_mastery.rs:38 | the printed digits read back as the number |

## Left out

- The network, the hyper client handle and the futures combinators. They are
  asynchronous I/O. The model takes a function from the request sent to an
  exchange: no response, or a status together with either the body bytes or a
  failed body read.
- What `Uri::parse`, `HeaderValue::from_str` and `serde_json::from_slice` do.
  They are library code the model cannot see, so they are parameters.
- Serde's handling of non-string tokens. `deserialize_any` with a visitor that
  implements only `visit_str` and `visit_string` is modelled on strings only.
- Strings.Lower: Rust's `to_lowercase` follows Unicode case mapping; the model
  maps ASCII `A`-`Z` only and keeps the length, where Rust may change it
  (U+0130 lowercases to two characters). Every literal compared against is
  ASCII, so whether a parse succeeds differs only for non-ASCII inputs that
  lowercase to ASCII; but the error payload (`InvalidTier`, `InvalidDivision`,
  `InvalidRank`, `InvalidQueue` and the serde messages) carries the lowercased
  input, so it differs for any input with a non-ASCII uppercase letter: `"É"`
  gives `InvalidTier("é")` in Rust and `InvalidTier("É")` here.
- The URI: the source stores the parsed `hyper::Uri` in the request; the model
  stores the URI text, taking the parsed `Uri` to render back exactly as that
  text.
- Http.Request.InsertHeader: hyper lowercases header names; the model keeps the
  name `X-Riot-Token` as given, and the request holds a single header.
- Logging through `debug!`. It does not affect results.
- The `dotenv!` base host of src/regions.rs. It is a compile-time value and is
  a parameter here. The clients call `host(api_host)` through a `WithHost`
  trait that is not part of this model; it is taken to be `label.api_host`.
- The path constants `SUMMONER_API_PATH` of lol-api, `LEAGUE_PATH` and
  `MATCH_V4_PATH`. They live in `paths.rs` files that are not part of this
  model, so they are parameters. The `paths.rs` of src/endpoints is not part of
  this model either; `SummonerV4` and `ChampionMasteryV4` take its constants to
  hold the values shown in src/api/summoner.rs and src/api/champion_mastery.rs.
- SummonerApi.ByName: `Api::get_url` is not part of this model (src/lib.rs
  defines only a private `get_uri`), so the URL is a parameter `getUrl`.
- `LeagueV4` is modelled as paths only. Its generic `RiotApi<T>` with `get(path)`
  is not part of this model. It matches none of the client revisions shown.
- The maintainer CLI, templating and file output (lol-maintainer main.rs,
  files.rs, endpoints/descriptor.rs and endpoints/constants.rs).
- DTO structs, error enums (only `Http`, `Json` and `Status(code)` are kept),
  champion rotations, `mod.rs` re-exports, the accessors that wrap the client
  (`summoners`, `league`, `champion_mastery`, `match_v4`, `constants`) and the
  placeholder tests.

## Findings

| source | as written | input that shows it | evidently intended | confidence | as-written member | corrected member |
|---|---|---|---|---|---|---|
| src/models/queue.rs:42-50 | `s.to_lowercase()` is matched against uppercase literals such as `"RANKED_TFT"`, so no input is ever accepted | `"RANKED_TFT"` is lowercased to `"ranked_tft"` and rejected with `InvalidQueue("ranked_tft")` | compare against the lowercased literals, so `from_str(value(q)) == Ok(q)` and serde round-trips | high, not executed | Queues.FromStrAlwaysFails | Queues.CorrectedRoundTrip |
| src/api/summoner.rs:17 | the by-name path is `SUMMONER_API_PATH + "/by-name" + name`, with no `/` before the name | `"Faker"` gives `/lol/summoner/v4/summoners/by-nameFaker` | `SUMMONER_API_PATH + "/by-name/" + name`, the path of src/endpoints/summoner.rs:22 | high, not executed | SummonerApi.ByNamePathMissesSlash | SummonerApi.ByNamePathCorrectedLayout |
