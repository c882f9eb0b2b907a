/**
 * The TrackPlayer plugin object: the statistics cache, the dirty flag and
 * the player data document, and the operations that read and change them.
 */
module TrackPlayerPlugin {
  import opened Wrappers
  import opened Uuids
  import opened Stats
  import opened PlayerData
  import opened Events

  /** What getSaveStatus reports ("save needed" / "all data saved"). */
  const SaveNeededStatus := "Требуется сохранение"
  const AllSavedStatus := "Все данные сохранены"

  class TrackPlayer {
    /** statsCache: every player seen since the plugin was enabled. */
    var statsCache: Cache
    /** needsSave: set by every change, cleared by a successful save. */
    var needsSave: bool
    /**
     * playerData, the in-memory document; None while it (and dataFile,
     * which loadPlayerData sets at the same time) is still null.
     */
    var playerData: Option<Document>
    /** What playerdata.yml holds on disk. */
    var dataFile: Document

    /** The state onEnable starts from, with `stored` on disk. */
    constructor (stored: Document)
      ensures statsCache == map[] && !needsSave && playerData == None && dataFile == stored
    {
      statsCache := map[];
      needsSave := false;
      playerData := None;
      dataFile := stored;
    }

    /**
     * loadPlayerData: read the file into playerData and put every player
     * entry under `players` into the cache. Names that are not UUIDs are
     * skipped; missing fields read as 0. A plain value at `players`, where
     * a section is expected, makes the Java code fail with a null section:
     * then ok is false and the cache is untouched.
     */
    method LoadPlayerData() returns (ok: bool)
      modifies this
      ensures playerData == Some(dataFile) && dataFile == old(dataFile) && needsSave == old(needsSave)
      ensures ok <==> "players" !in dataFile
      ensures statsCache == if ok then old(statsCache) + ParsePlayers(dataFile) else old(statsCache)
    {
      playerData := Some(dataFile);
      var doc: Document := dataFile;
      if "players" in doc {
        return false;
      }
      ok := true;
      statsCache := LoadEntries(statsCache, doc, Children(doc));
    }

    /**
     * savePlayerData: when the document exists, write the three counters
     * of every cached player into it, then write the document to disk.
     * Only a successful write (writeOk) updates the file and clears
     * needsSave; the in-memory document is updated either way.
     */
    method SavePlayerData(writeOk: bool)
      modifies this
      ensures statsCache == old(statsCache)
      ensures playerData.Some? <==> old(playerData).Some?
      ensures old(playerData).Some? ==> Written(old(playerData).value, statsCache, playerData.value)
      ensures dataFile == if old(playerData).Some? && writeOk then playerData.value else old(dataFile)
      ensures needsSave == if old(playerData).Some? && writeOk then false else old(needsSave)
    {
      if playerData.Some? {
        var doc := WriteEntries(playerData.value, statsCache);
        playerData := Some(doc);
        if writeOk {
          dataFile := doc;
          needsSave := false;
        }
      }
    }

    /** markDataDirty. */
    method MarkDataDirty()
      modifies this`needsSave
      ensures needsSave
    {
      needsSave := true;
    }

    /** The body of the auto-save task: save only when something changed. */
    method AutoSaveTick(writeOk: bool)
      modifies this
      ensures statsCache == old(statsCache)
      ensures !old(needsSave) ==> playerData == old(playerData) && dataFile == old(dataFile) && !needsSave
      ensures old(needsSave) ==> needsSave == !(old(playerData).Some? && writeOk)
      ensures playerData.Some? <==> old(playerData).Some?
      ensures old(needsSave) && old(playerData).Some? ==> Written(old(playerData).value, statsCache, playerData.value)
      ensures dataFile == if old(needsSave) && old(playerData).Some? && writeOk then playerData.value else old(dataFile)
    {
      if needsSave {
        SavePlayerData(writeOk);
      }
    }

    /** incrementDeaths: raise one player's deaths by one, creating a zero record first if needed. */
    method IncrementDeaths(u: Uuid)
      modifies this
      ensures statsCache == Credited(old(statsCache), u, Deaths)
      ensures needsSave && playerData == old(playerData) && dataFile == old(dataFile)
    {
      var stats := if u in statsCache then statsCache[u] else Zero;
      stats := stats.Incremented(Deaths);
      statsCache := statsCache[u := stats];
      MarkDataDirty();
    }

    /** incrementPlayerKills. */
    method IncrementPlayerKills(u: Uuid)
      modifies this
      ensures statsCache == Credited(old(statsCache), u, PlayerKills)
      ensures needsSave && playerData == old(playerData) && dataFile == old(dataFile)
    {
      var stats := if u in statsCache then statsCache[u] else Zero;
      stats := stats.Incremented(PlayerKills);
      statsCache := statsCache[u := stats];
      MarkDataDirty();
    }

    /** incrementMobKills. */
    method IncrementMobKills(u: Uuid)
      modifies this
      ensures statsCache == Credited(old(statsCache), u, MobKills)
      ensures needsSave && playerData == old(playerData) && dataFile == old(dataFile)
    {
      var stats := if u in statsCache then statsCache[u] else Zero;
      stats := stats.Incremented(MobKills);
      statsCache := statsCache[u := stats];
      MarkDataDirty();
    }

    /** getDeaths: the cached deaths, 0 for a player not in the cache. */
    function GetDeaths(u: Uuid): (r: Int32)
      reads this
      ensures u !in statsCache ==> r == 0
      ensures u in statsCache ==> r == statsCache[u].deaths
    {
      Count(statsCache, u, Deaths)
    }

    /** getPlayerKills. */
    function GetPlayerKills(u: Uuid): (r: Int32)
      reads this
      ensures u !in statsCache ==> r == 0
      ensures u in statsCache ==> r == statsCache[u].playerKills
    {
      Count(statsCache, u, PlayerKills)
    }

    /** getMobKills. */
    function GetMobKills(u: Uuid): (r: Int32)
      reads this
      ensures u !in statsCache ==> r == 0
      ensures u in statsCache ==> r == statsCache[u].mobKills
    {
      Count(statsCache, u, MobKills)
    }

    /** getPlayerMobKills: a fresh map from every cached player to its mob kills. */
    method GetPlayerMobKills() returns (result: map<Uuid, Int32>)
      ensures result == MobKillsOf(statsCache)
    {
      result := map[];
      var todo := statsCache.Keys;
      while todo != {}
        invariant todo <= statsCache.Keys
        invariant result.Keys == statsCache.Keys - todo
        invariant forall u :: u in result ==> result[u] == statsCache[u].mobKills
        decreases |todo|
      {
        var u :| u in todo;
        result := result[u := statsCache[u].mobKills];
        todo := todo - {u};
      }
    }

    /**
     * resetAllMobKills: set every cached player's mob kills to 0, mark the
     * data dirty and save at once.
     */
    method ResetAllMobKills(writeOk: bool)
      modifies this
      ensures statsCache == MobKillsCleared(old(statsCache))
      ensures playerData.Some? <==> old(playerData).Some?
      ensures old(playerData).Some? ==> Written(old(playerData).value, statsCache, playerData.value)
      ensures dataFile == if old(playerData).Some? && writeOk then playerData.value else old(dataFile)
      ensures needsSave == !(old(playerData).Some? && writeOk)
    {
      var todo := statsCache.Keys;
      while todo != {}
        modifies this`statsCache
        invariant todo <= statsCache.Keys == old(statsCache).Keys
        invariant forall u :: u in statsCache ==>
                    statsCache[u] == if u in todo then old(statsCache)[u] else old(statsCache)[u].(mobKills := 0)
        decreases |todo|
      {
        var u :| u in todo;
        statsCache := statsCache[u := statsCache[u].(mobKills := 0)];
        todo := todo - {u};
      }
      MarkDataDirty();
      SavePlayerData(writeOk);
    }

    /** getCachedPlayersCount. */
    function CachedPlayersCount(): (n: nat)
      reads this
      ensures n == |statsCache.Keys|
    {
      |statsCache|
    }

    /** getSaveStatus: reports "all saved" exactly when nothing is waiting to be saved. */
    function SaveStatus(): (s: string)
      reads this
      ensures s == AllSavedStatus <==> !needsSave
      ensures s == SaveNeededStatus <==> needsSave
    {
      if needsSave then SaveNeededStatus else AllSavedStatus
    }

    /** onPlayerDeath: credit the victim's death and, when there is one, the killer's player kill. */
    method OnPlayerDeath(victim: Uuid, killer: Option<Uuid>)
      modifies this
      ensures statsCache == AfterPlayerDeath(old(statsCache), victim, killer)
      ensures needsSave && playerData == old(playerData) && dataFile == old(dataFile)
    {
      IncrementDeaths(victim);
      if killer.Some? {
        IncrementPlayerKills(killer.value);
      }
    }

    /** onEntityDeath: credit a mob kill to the killer of a hostile mob. */
    method OnEntityDeath(entityType: EntityType, killer: Option<Uuid>)
      modifies this
      ensures statsCache == AfterEntityDeath(old(statsCache), entityType, killer)
      ensures needsSave == (old(needsSave) || (killer.Some? && IsHostileMob(entityType)))
      ensures playerData == old(playerData) && dataFile == old(dataFile)
    {
      if killer.Some? && entityType != Player {
        if IsHostileMob(entityType) {
          IncrementMobKills(killer.value);
        }
      }
    }
  }

  /**
   * The loop of loadPlayerData over the child names under `players`: each
   * name that parses as a UUID puts that player's record, read from under
   * the name, into the cache; other names are skipped.
   */
  method LoadEntries(cache0: Cache, doc: Document, children: set<string>) returns (cache: Cache)
    ensures cache == cache0 + Loaded(doc, children)
  {
    cache := cache0;
    var todo := children;
    ghost var done: set<string> := {};
    LoadedNothing(doc);
    while todo != {}
      invariant todo <= children && done == children - todo
      invariant cache == cache0 + Loaded(doc, done)
      decreases |todo|
    {
      var s :| s in todo;
      var parsed := FromString(s);
      if parsed.Some? {
        LoadedAddOnto(cache0, doc, done, s, parsed.value);
        cache := cache[parsed.value := StatsUnder(doc, s)];
      } else {
        // logged as an invalid UUID and skipped
        LoadedSkipOnto(cache0, doc, done, s);
      }
      done, todo := done + {s}, todo - {s};
    }
    assert done == children;
  }

  /**
   * The loop of savePlayerData over the cached players: set the three
   * counter paths of each player in the document to its cached counters.
   */
  method WriteEntries(before: Document, cache: Cache) returns (doc: Document)
    ensures Written(before, cache, doc)
  {
    doc := before;
    ghost var written: Cache := map[];
    WrittenNothing(doc);
    var todo := cache.Keys;
    while todo != {}
      invariant todo <= cache.Keys
      invariant written.Keys == cache.Keys - todo
      invariant forall u :: u in written ==> written[u] == cache[u]
      invariant Written(before, written, doc)
      decreases |todo|
    {
      var u :| u in todo;
      var stats := cache[u];
      WrittenStep(before, written, doc, u, stats);
      doc := SetPath(doc, StatPath(u, Deaths), stats.deaths);
      doc := SetPath(doc, StatPath(u, PlayerKills), stats.playerKills);
      doc := SetPath(doc, StatPath(u, MobKills), stats.mobKills);
      written := written[u := stats];
      todo := todo - {u};
    }
    assert written == cache;
  }

  /**
   * A fresh start on a file without players, two deaths of one player and a
   * save: the file then holds that player with 2 deaths and 0 kills of
   * either kind, and nothing is left to save.
   */
  method TwoDeathsScenario(x: Uuid, stored: Document)
    requires "players" !in stored && Children(stored) == {}
  {
    var plugin := new TrackPlayer(stored);
    var ok := plugin.LoadPlayerData();
    NoPlayers(stored);
    plugin.IncrementDeaths(x);
    plugin.IncrementDeaths(x);
    assert plugin.GetDeaths(x) == 2;
    plugin.SavePlayerData(true);
    assert !plugin.needsSave && plugin.SaveStatus() == AllSavedStatus;
    var file := plugin.dataFile;
    assert file[StatPath(x, Deaths)] == 2 && file[StatPath(x, PlayerKills)] == 0 && file[StatPath(x, MobKills)] == 0;
  }

  /**
   * Saving and then starting a new plugin on the saved file brings back
   * exactly the cache, when every player of the document is cached.
   */
  method RestartScenario(plugin: TrackPlayer)
    requires plugin.playerData.Some?
    requires ParsePlayers(plugin.playerData.value).Keys <= plugin.statsCache.Keys
    modifies plugin
  {
    ghost var before := plugin.playerData.value;
    plugin.SavePlayerData(true);
    RestartLoadsCache(before, plugin.statsCache, plugin.dataFile);
    var restarted := new TrackPlayer(plugin.dataFile);
    var ok := restarted.LoadPlayerData();
    assert restarted.statsCache == plugin.statsCache;
  }

  /**
   * A start on a file that loads, one death, a save and a restart: the
   * restarted plugin holds exactly the cache of the first.
   */
  method LifecycleScenario(stored: Document, u: Uuid)
  {
    var plugin := new TrackPlayer(stored);
    var ok := plugin.LoadPlayerData();
    if ok {
      plugin.IncrementDeaths(u);
      RestartScenario(plugin);
    }
  }
}
