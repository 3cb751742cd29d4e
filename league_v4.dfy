/** `LeagueV4` of src/endpoints/league.rs: six paths built on `LEAGUE_PATH` with the
    `Display` strings of queues, tiers and ranks. `LEAGUE_PATH` is defined in a file
    that is not part of this model, so every path takes it as `leaguePath`. */
module LeagueV4 {
  import opened Strings
  import Queues
  import Tiers
  import Ranks

  function ChallengerLeaguesPath(leaguePath: string, queue: Queues.Queue): string {
    leaguePath + "/challengerleagues/by-queue/" + Queues.Display(queue)
  }

  function GrandmasterLeaguesPath(leaguePath: string, queue: Queues.Queue): string {
    leaguePath + "/grandmasterleagues/by-queue/" + Queues.Display(queue)
  }

  function MasterLeaguesPath(leaguePath: string, queue: Queues.Queue): string {
    leaguePath + "/masterleagues/by-queue/" + Queues.Display(queue)
  }

  function LeaguesByIdPath(leaguePath: string, leagueId: string): string {
    leaguePath + "/leagues/" + leagueId
  }

  function EntriesBySummonerIdPath(leaguePath: string, summonerId: string): string {
    leaguePath + "/entries/by-summoner/" + summonerId
  }

  function EntriesPath(leaguePath: string, queue: Queues.Queue, tier: Tiers.Tier, rank: Ranks.Rank): string {
    leaguePath + "/entries/" + Queues.Display(queue) + "/" + Tiers.Display(tier) + "/" + Ranks.Display(rank)
  }

  /** The three by-queue paths differ in the letter after `LEAGUE_PATH/`, whatever
      the queues. */
  lemma ByQueuePathsDistinct(leaguePath: string, q: Queues.Queue, q': Queues.Queue)
    ensures ChallengerLeaguesPath(leaguePath, q) != GrandmasterLeaguesPath(leaguePath, q')
    ensures ChallengerLeaguesPath(leaguePath, q) != MasterLeaguesPath(leaguePath, q')
    ensures GrandmasterLeaguesPath(leaguePath, q) != MasterLeaguesPath(leaguePath, q')
  {
    var n := |leaguePath| + 1;
    assert ChallengerLeaguesPath(leaguePath, q)[n] == 'c';
    assert GrandmasterLeaguesPath(leaguePath, q)[n] == 'g';
    assert GrandmasterLeaguesPath(leaguePath, q')[n] == 'g';
    assert MasterLeaguesPath(leaguePath, q')[n] == 'm';
  }

  /** A by-queue path ends with the queue's string and determines the queue. */
  lemma ByQueuePathNamesQueue(leaguePath: string, q: Queues.Queue, q': Queues.Queue)
    ensures EndsWith(ChallengerLeaguesPath(leaguePath, q), Queues.Value(q))
    ensures EndsWith(GrandmasterLeaguesPath(leaguePath, q), Queues.Value(q))
    ensures EndsWith(MasterLeaguesPath(leaguePath, q), Queues.Value(q))
    ensures ChallengerLeaguesPath(leaguePath, q) == ChallengerLeaguesPath(leaguePath, q') ==> q == q'
    ensures GrandmasterLeaguesPath(leaguePath, q) == GrandmasterLeaguesPath(leaguePath, q') ==> q == q'
    ensures MasterLeaguesPath(leaguePath, q) == MasterLeaguesPath(leaguePath, q') ==> q == q'
  {
    QueueSegmentDetermines(leaguePath + "/challengerleagues/by-queue/", q, q');
    QueueSegmentDetermines(leaguePath + "/grandmasterleagues/by-queue/", q, q');
    QueueSegmentDetermines(leaguePath + "/masterleagues/by-queue/", q, q');
  }

  lemma QueueSegmentDetermines(prefix: string, q: Queues.Queue, q': Queues.Queue)
    ensures EndsWith(prefix + Queues.Value(q), Queues.Value(q))
    ensures prefix + Queues.Value(q) == prefix + Queues.Value(q') ==> q == q'
  {
    if prefix + Queues.Value(q) == prefix + Queues.Value(q') {
      PrefixCancel(prefix, Queues.Value(q), Queues.Value(q'));
      Queues.ValueInjective(q, q');
    }
  }

  /** No `/` occurs in a queue, tier or rank string. */
  lemma EnumStringsHaveNoSlash(queue: Queues.Queue, tier: Tiers.Tier, rank: Ranks.Rank)
    ensures '/' !in Queues.Value(queue)
    ensures '/' !in Tiers.Value(tier)
    ensures '/' !in Ranks.Value(rank)
  {
    var t, k := Tiers.Value(tier), Ranks.Value(rank);
    forall i | 0 <= i < |t| ensures t[i] != '/' {
      assert IsUpperChar(t[i]) || t[i] == '_';
    }
    forall i | 0 <= i < |k| ensures k[i] != '/' {
      assert k[i] in "IVX";
    }
  }

  /** `entries` is injective in (queue, tier, rank): the path can be split back at
      its `/` separators. */
  lemma EntriesInjective(leaguePath: string, q: Queues.Queue, t: Tiers.Tier, k: Ranks.Rank,
                         q': Queues.Queue, t': Tiers.Tier, k': Ranks.Rank)
    requires EntriesPath(leaguePath, q, t, k) == EntriesPath(leaguePath, q', t', k')
    ensures q == q' && t == t' && k == k'
  {
    EnumStringsHaveNoSlash(q, t, k);
    EnumStringsHaveNoSlash(q', t', k');
    SplitThreeSegments(leaguePath + "/entries/", Queues.Value(q), Tiers.Value(t), Ranks.Value(k),
                       Queues.Value(q'), Tiers.Value(t'), Ranks.Value(k'));
    Queues.ValueInjective(q, q');
    Tiers.ValueInjective(t, t');
    Ranks.ValueInjective(k, k');
  }

  /** Behind a common prefix, two `/`-joined triples whose first two parts hold no
      `/` are equal only part by part. */
  lemma SplitThreeSegments(p: string, a: string, b: string, c: string, a': string, b': string, c': string)
    requires '/' !in a && '/' !in b && '/' !in a' && '/' !in b'
    requires p + a + "/" + b + "/" + c == p + a' + "/" + b' + "/" + c'
    ensures a == a' && b == b' && c == c'
  {
    assert p + a + "/" + b + "/" + c == p + (a + ['/'] + (b + ['/'] + c));
    assert p + a' + "/" + b' + "/" + c' == p + (a' + ['/'] + (b' + ['/'] + c'));
    PrefixCancel(p, a + ['/'] + (b + ['/'] + c), a' + ['/'] + (b' + ['/'] + c'));
    SplitAtSeparator('/', a, b + ['/'] + c, a', b' + ['/'] + c');
    SplitAtSeparator('/', b, c, b', c');
  }

  /** An `entries` path is never an `entries_by_summoner_id` path: after `/entries/`
      the first comes with `RANKED_`, the second with `by-summoner/`. */
  lemma EntriesNotBySummoner(leaguePath: string, q: Queues.Queue, t: Tiers.Tier, k: Ranks.Rank, id: string)
    ensures EntriesPath(leaguePath, q, t, k) != EntriesBySummonerIdPath(leaguePath, id)
  {
    var n := |leaguePath| + 9;
    assert Queues.Value(q)[0] == 'R';
    assert EntriesPath(leaguePath, q, t, k)[n] == 'R';
    assert EntriesBySummonerIdPath(leaguePath, id)[n] == 'b';
  }

  /** The league id and the summoner id are inserted verbatim. */
  lemma IdentifiersVerbatim(leaguePath: string, id: string)
    ensures LeaguesByIdPath(leaguePath, id)[|leaguePath| + 9..] == id
    ensures EntriesBySummonerIdPath(leaguePath, id)[|leaguePath| + 21..] == id
  {
  }
}
