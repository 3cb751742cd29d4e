/** `SummonerApi` of src/api/summoner.rs: the summoner path constant, the by-name
    path, and `get_summoner`, which issues a bare GET and decodes whatever comes
    back. */
module SummonerApi {
  import opened Results
  import opened Strings
  import opened Http

  /** `SUMMONER_API_PATH`. */
  const SummonerApiPath: string := "/lol/summoner/v4/summoners"

  /** The by-name path exactly as `by_name` formats it: `"/by-name"` is followed by
      the name with no `/` in between. */
  function ByNamePath(name: string): string {
    SummonerApiPath + "/by-name" + name
  }

  /** The as-written path is 34 characters of fixed text followed by the name. */
  lemma ByNamePathLayout(name: string)
    ensures |ByNamePath(name)| == 34 + |name|
    ensures ByNamePath(name)[34..] == name
    ensures EndsWith(ByNamePath(name), name)
    ensures StartsWith(ByNamePath(name), "/lol/summoner/v4/summoners/by-name")
  {
    assert SummonerApiPath + "/by-name" == "/lol/summoner/v4/summoners/by-name";
  }

  /** The name is glued onto the segment: `Faker` gives `.../by-nameFaker`. */
  lemma ByNamePathFaker()
    ensures ByNamePath("Faker") == "/lol/summoner/v4/summoners/by-nameFaker"
    ensures ByNamePath("Faker") != ByNamePathCorrected("Faker")
  {
    ByNamePathMissesSlash("Faker");
  }

  /** The as-written path never equals the intended path for the same name; it
      equals an intended path only when the name itself starts with `/`. */
  lemma ByNamePathMissesSlash(name: string)
    ensures ByNamePath(name) != ByNamePathCorrected(name)
    ensures forall n :: ByNamePath(name) == ByNamePathCorrected(n) <==> name == "/" + n
  {
    var p := SummonerApiPath + "/by-name";
    assert ByNamePath(name) == p + name;
    assert forall n :: ByNamePathCorrected(n) == p + ("/" + n);
    forall n
      ensures ByNamePath(name) == ByNamePathCorrected(n) <==> name == "/" + n
    {
      if name != "/" + n {
        PrefixKeepsDifference(p, name, "/" + n);
      }
    }
  }

  /** The by-name path with the separator the endpoint needs. */
  function ByNamePathCorrected(name: string): string {
    SummonerApiPath + "/by-name/" + name
  }

  /** The intended path holds the name after the 35 characters `.../by-name/`, so
      distinct names give distinct paths. */
  lemma ByNamePathCorrectedLayout(name: string, other: string)
    ensures |ByNamePathCorrected(name)| == 35 + |name|
    ensures ByNamePathCorrected(name)[..35] == "/lol/summoner/v4/summoners/by-name/"
    ensures ByNamePathCorrected(name)[35..] == name
    ensures ByNamePathCorrected(name) == ByNamePathCorrected(other) ==> name == other
  {
    assert SummonerApiPath + "/by-name/" == "/lol/summoner/v4/summoners/by-name/";
    assert ByNamePathCorrected(other)[35..] == other;
  }

  /** The request `get_summoner` sends: `Client::get(url)`, a GET with no header and
      an empty body. */
  function SummonerRequest(url: string): (req: RequestView)
    ensures req.httpMethod == GET && req.uri == url
    ensures TokenHeader !in req.headers && req.body == []
  {
    RequestView(GET, url, map[], [])
  }

  /** `get_summoner`: send the bare GET and decode the body whatever the status. */
  function GetSummoner<R>(url: string, network: RequestView -> Exchange,
                          decode: seq<byte> -> Option<R>): (r: Result<R, FetchError>)
    ensures r == DecodeAnyStatus(network(SummonerRequest(url)), decode)
    ensures r.Err? ==> !r.error.Status?
  {
    DecodeAnyStatus(network(SummonerRequest(url)), decode)
  }

  /** A 404 answer whose body decodes is taken for a summoner. */
  lemma GetSummonerIgnoresStatus<R>(url: string, b: seq<byte>, decode: seq<byte> -> Option<R>)
    requires decode(b).Some?
    ensures GetSummoner(url, _ => Received(404, Some(b)), decode) == Ok(decode(b).value)
    ensures GetSummoner(url, _ => Received(404, Some(b)), decode) == GetSummoner(url, _ => Received(200, Some(b)), decode)
  {
    DecodeAnyStatusIgnoresStatus(404, 200, Some(b), decode);
  }

  /** `by_name`: the as-written path handed to `Api::get_url` (which is not part of
      this model, hence the parameter `getUrl`) and then to `get_summoner`. */
  function ByName<R>(getUrl: string -> string, name: string, network: RequestView -> Exchange,
                     decode: seq<byte> -> Option<R>): (r: Result<R, FetchError>)
    ensures r == DecodeAnyStatus(network(SummonerRequest(getUrl(ByNamePath(name)))), decode)
  {
    GetSummoner(getUrl(ByNamePath(name)), network, decode)
  }
}
