/**
 * TrackPlayer.PlayerStats and the statistics cache: three Java `int`
 * counters per player, and the cache from player identity to record.
 */
module Stats {
  import opened Uuids

  const MinInt32: int := -0x8000_0000
  const MaxInt32: int := 0x7fff_ffff
  const Modulus32: int := 0x1_0000_0000

  /** A Java `int`. */
  type Int32 = x: int | MinInt32 <= x <= MaxInt32

  /** Two's-complement reduction of an integer to a Java `int`. */
  function Wrap32(x: int): Int32 {
    (x - MinInt32) % Modulus32 + MinInt32
  }

  /** Java's `x++` on an `int`: adds one, wrapping from MaxInt32 to MinInt32. */
  function Inc32(x: Int32): (r: Int32)
    ensures r == Wrap32(x + 1)
    ensures x < MaxInt32 ==> r == x + 1
  {
    if x == MaxInt32 then MinInt32 else x + 1
  }

  /** The three counters kept per player. */
  datatype Counter = Deaths | PlayerKills | MobKills

  datatype PlayerStats = PlayerStats(deaths: Int32, playerKills: Int32, mobKills: Int32)
  {
    function Get(c: Counter): Int32 {
      match c
      case Deaths => deaths
      case PlayerKills => playerKills
      case MobKills => mobKills
    }

    /** PlayerStats.incrementDeaths / incrementPlayerKills / incrementMobKills. */
    function Incremented(c: Counter): (r: PlayerStats)
      ensures r.Get(c) == Inc32(Get(c))
      ensures forall d :: d != c ==> r.Get(d) == Get(d)
    {
      match c
      case Deaths => this.(deaths := Inc32(deaths))
      case PlayerKills => this.(playerKills := Inc32(playerKills))
      case MobKills => this.(mobKills := Inc32(mobKills))
    }
  }

  /** `new PlayerStats()`. */
  const Zero := PlayerStats(0, 0, 0)

  /** The contents of `statsCache`. */
  type Cache = map<Uuid, PlayerStats>

  /** What getDeaths / getPlayerKills / getMobKills return: the cached counter, or 0. */
  function Count(cache: Cache, u: Uuid, c: Counter): Int32 {
    if u in cache then cache[u].Get(c) else 0
  }

  /**
   * The cache after incrementDeaths / incrementPlayerKills / incrementMobKills(u):
   * the record is fetched or created as zero, one counter is incremented and
   * the record is put back.
   */
  function Credited(cache: Cache, u: Uuid, c: Counter): (r: Cache)
    ensures r.Keys == cache.Keys + {u}
    ensures |r| == if u in cache then |cache| else |cache| + 1
    ensures Count(r, u, c) == Inc32(Count(cache, u, c))
    ensures forall v, d :: (v != u || d != c) ==> Count(r, v, d) == Count(cache, v, d)
  {
    var stats := if u in cache then cache[u] else Zero;
    cache[u := stats.Incremented(c)]
  }

  /** The cache after resetAllMobKills: every record's mob kills set to 0. */
  function MobKillsCleared(cache: Cache): (r: Cache)
    ensures r.Keys == cache.Keys
    ensures forall v :: Count(r, v, MobKills) == 0
    ensures forall v, d :: d != MobKills ==> Count(r, v, d) == Count(cache, v, d)
  {
    map u | u in cache :: cache[u].(mobKills := 0)
  }

  /** What getPlayerMobKills returns: every cached player with its mob kills. */
  function MobKillsOf(cache: Cache): (r: map<Uuid, Int32>)
    ensures r.Keys == cache.Keys
    ensures forall v :: v in r ==> r[v] == Count(cache, v, MobKills)
  {
    map u | u in cache :: cache[u].mobKills
  }

  /** One increment request: which counter of which player. */
  datatype Credit = Credit(player: Uuid, counter: Counter)

  /** The cache after applying a sequence of increment requests in order. */
  function CreditAll(cache: Cache, credits: seq<Credit>): Cache
    decreases |credits|
  {
    if credits == [] then cache
    else CreditAll(Credited(cache, credits[0].player, credits[0].counter), credits[1..])
  }

  /** Crediting a run of increments and then another is crediting the two runs joined. */
  lemma {:induction false} CreditAllAppend(cache: Cache, first: seq<Credit>, second: seq<Credit>)
    ensures CreditAll(cache, first + second) == CreditAll(CreditAll(cache, first), second)
    decreases |first|
  {
    if first == [] {
      assert first + second == second;
    } else {
      var next := Credited(cache, first[0].player, first[0].counter);
      assert (first + second)[0] == first[0];
      assert (first + second)[1..] == first[1..] + second;
      CreditAllAppend(next, first[1..], second);
    }
  }

  /** How many of the requests are aimed at counter c of player u. */
  function Occurrences(credits: seq<Credit>, u: Uuid, c: Counter): nat
    decreases |credits|
  {
    if credits == [] then 0
    else (if credits[0] == Credit(u, c) then 1 else 0) + Occurrences(credits[1..], u, c)
  }

  /**
   * No increment is lost or duplicated: after any sequence of requests each
   * counter has moved by exactly the number of requests aimed at it (as long
   * as the total stays within a Java `int`).
   */
  lemma {:induction false} CreditAllCounts(cache: Cache, credits: seq<Credit>, u: Uuid, c: Counter)
    requires Count(cache, u, c) + Occurrences(credits, u, c) <= MaxInt32
    ensures Count(CreditAll(cache, credits), u, c) == Count(cache, u, c) + Occurrences(credits, u, c)
    decreases |credits|
  {
    if credits != [] {
      var next := Credited(cache, credits[0].player, credits[0].counter);
      if credits[0] == Credit(u, c) {
        assert Count(next, u, c) == Count(cache, u, c) + 1;
      } else {
        assert Count(next, u, c) == Count(cache, u, c);
      }
      CreditAllCounts(next, credits[1..], u, c);
    }
  }
}
