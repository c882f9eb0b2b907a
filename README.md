# TrackPlayer statistics, modelled in Dafny

TrackPlayer is a Paper/Bukkit server plugin. It counts, per player, deaths,
kills of other players and kills of hostile mobs. The counters live in an
in-memory cache keyed by player UUID. A YAML file (`playerdata.yml`) holds
them between restarts, under `players.<uuid>.deaths`, `.player_kills` and
`.mob_kills`. A dirty flag drives a periodic auto-save. A PlaceholderAPI
expansion shows the counters as text.

This project models that core and proves what it promises:

- `uuids.dfy`: the canonical text form of a UUID. Parsing and printing are
  proved to be inverse both ways.
- `stats.dfy`: the per-player record and the increments, including Java's
  32-bit wrap-around of `++`, and the cache as a map from UUID to record.
- `player_data.dfy`: the YAML document as a map from flat dotted paths to
  ints. It covers what loading reads from it and what saving writes into
  it. Writing a path with `set` replaces a plain value stored above it
  and anything stored below it, as in the YAML tree. It also holds the round trip: loading a saved document gives back the
  saved cache, on top of what the document held before.
- `events.dfy`: the entity types, the hostile-mob list, and how a death
  is credited.
- `track_player.dfy`: the plugin object as a class with the cache, the
  dirty flag, the in-memory document and the file on disk as fields. Its
  methods change those fields, and their loops are proved against the
  functions above.
- `stats_placeholder.dfy`: the placeholder request. It covers
  case-insensitive parameter matching and the decimal text of a count,
  which is proved to read back as the count.

The model follows the Java code. Reads go to the cache only. Nothing is
evicted from the cache, and a player who is not cached reads as 0; there
is no lookup on disk.

## Model

| member | source | states |
|---|---|---|
| Uuids.ToString | src/main/java/com/flyaway/trackplayer/TrackPlayer.java:134 | the text of a UUID is canonical: 36 characters, lower-case hex digits in groups 8-4-4-4-12 with '-' exactly at positions 8, 13, 18 and 23, and no '.', so it is one path segment |
| Uuids.FromString | src/main/java/com/flyaway/trackplayer/TrackPlayer.java:87 | a text parses exactly when it is in canonical form, and each digit of the result is the one written at its position; the narrower set of accepted texts is under Left out |
| Uuids.ParseOfToString | src/main/java/com/flyaway/trackplayer/TrackPlayer.java:87 | parsing the text of a UUID gives that UUID back |
| Uuids.ToStringOfParse | src/main/java/com/flyaway/trackplayer/TrackPlayer.java:87 | a text that parses is the text of the UUID it parses to (both directions of the round trip) |
| Uuids.ToStringInjective | src/main/java/com/flyaway/trackplayer/TrackPlayer.java:134 | different players are saved under different paths |
| Stats.Inc32 | src/main/java/com/flyaway/trackplayer/TrackPlayer.java:427-429 | `++` on a Java int: one more, wrapping from 2147483647 to -2147483648 |
| Stats.PlayerStats.Incremented | src/main/java/com/flyaway/trackplayer/TrackPlayer.java:427-429 | the named counter goes up by one (with wrap-around) and the other two are unchanged |
| Stats.Credited | src/main/java/com/flyaway/trackplayer/TrackPlayer.java:339-358 | getOrDefault-then-put: the player gets a record (a fresh zero record if missing), only its named counter moves by one, and every other player and counter is unchanged |
| Stats.MobKillsCleared | src/main/java/com/flyaway/trackplayer/TrackPlayer.java:389-392 | every cached player keeps its deaths and player kills and has 0 mob kills; no player is added or removed |
| Stats.MobKillsOf | src/main/java/com/flyaway/trackplayer/TrackPlayer.java:378-384 | exactly the cached players, each mapped to its mob-kill count |
| Stats.CreditAllCounts | src/main/java/com/flyaway/trackplayer/TrackPlayer.java:339-358 | after a run of increments each counter of each player has gone up by the number of increments naming it (while no counter passes 2147483647) |
| Stats.CreditAllAppend | src/main/java/com/flyaway/trackplayer/TrackPlayer.java:339-358 | crediting two runs of increments one after the other is crediting the joined run |
| PlayerData.FieldOf | src/main/java/com/flyaway/trackplayer/TrackPlayer.java:88-90 | the field name of each counter is recognised as exactly that counter, and no other name is |
| PlayerData.UpToDot | src/main/java/com/flyaway/trackplayer/TrackPlayer.java:85 | the first segment of a path: a prefix holding no '.' that is either the whole path or is followed by '.' |
| PlayerData.GetInt | src/main/java/com/flyaway/trackplayer/TrackPlayer.java:88-90 | the value stored at the path, or the default when nothing is stored there |
| PlayerData.Children | src/main/java/com/flyaway/trackplayer/TrackPlayer.java:85 | exactly the first segments of the paths under `players`: every such path gives a child name, every child name comes from such a path, and no child name holds a '.' |
| PlayerData.StatsUnder | src/main/java/com/flyaway/trackplayer/TrackPlayer.java:88-92 | each counter of the record built for a child is the int at that child's field path, or 0 |
| PlayerData.LoadedAt | src/main/java/com/flyaway/trackplayer/TrackPlayer.java:85-92 | a player is loaded from a set of child names exactly when its UUID text is among them, with the three fields read from under that name |
| PlayerData.LoadedNothing | src/main/java/com/flyaway/trackplayer/TrackPlayer.java:84-97 | no child names load no players |
| PlayerData.LoadedStep | src/main/java/com/flyaway/trackplayer/TrackPlayer.java:85-95 | one more child name adds the player it names, or nothing when the name is not a UUID |
| PlayerData.LoadedAddOnto | src/main/java/com/flyaway/trackplayer/TrackPlayer.java:87-92 | a child name that parses puts that player's record from the file into the cache |
| PlayerData.LoadedSkipOnto | src/main/java/com/flyaway/trackplayer/TrackPlayer.java:93-95 | a child name that is not a UUID is skipped and the cache is unchanged |
| PlayerData.StatPathDecodes | src/main/java/com/flyaway/trackplayer/TrackPlayer.java:134-139 | each counter path savePlayerData writes names one player and one counter, and decodes to them |
| PlayerData.StatKeyEncodes | src/main/java/com/flyaway/trackplayer/TrackPlayer.java:134-139 | a path that decodes is exactly the counter path of the player and counter it decodes to |
| PlayerData.StatPathInjective | src/main/java/com/flyaway/trackplayer/TrackPlayer.java:134-139 | two counter paths are equal only for the same player and counter, so saving one never overwrites another |
| PlayerData.SetPath | src/main/java/com/flyaway/trackplayer/TrackPlayer.java:137-139 | FileConfiguration.set: the value is stored at the path, and every other path survives with its value exactly when it lies neither above nor below the path |
| PlayerData.StatPathsApart | src/main/java/com/flyaway/trackplayer/TrackPlayer.java:134-139 | no counter path lies inside another, so writing one counter never replaces another |
| PlayerData.WithRecord | src/main/java/com/flyaway/trackplayer/TrackPlayer.java:137-139 | after the three sets for a player, each of its counter paths holds that counter of the record |
| PlayerData.WithRecordOthers | src/main/java/com/flyaway/trackplayer/TrackPlayer.java:137-139 | after the three sets for a player, any other path is present exactly when it was present and lies neither above nor below one of the player's counters, with its old value |
| PlayerData.WrittenNothing | src/main/java/com/flyaway/trackplayer/TrackPlayer.java:127-139 | a document with nothing written satisfies the save relation for the empty cache |
| PlayerData.CachedStatKeyOfPlayer | src/main/java/com/flyaway/trackplayer/TrackPlayer.java:134-139 | a counter path belongs to the cache with one more player exactly when it belongs to the old cache or to that player |
| PlayerData.WrittenStepValues | src/main/java/com/flyaway/trackplayer/TrackPlayer.java:135-138 | after one more player's three sets, every counter path written so far holds its cached value |
| PlayerData.WrittenStepNoOthers | src/main/java/com/flyaway/trackplayer/TrackPlayer.java:135-138 | after one more player's three sets, every path is a cached counter or an old path that no cached counter replaces |
| PlayerData.WrittenStepKeeps | src/main/java/com/flyaway/trackplayer/TrackPlayer.java:135-138 | after one more player's three sets, every old path that is neither a cached counter nor above or below one keeps its value |
| PlayerData.WrittenStep | src/main/java/com/flyaway/trackplayer/TrackPlayer.java:133-139 | one iteration of the save loop extends the save relation by that player |
| PlayerData.WrittenKeepsOthers | src/main/java/com/flyaway/trackplayer/TrackPlayer.java:127-139 | saving keeps every path that is neither a cached counter nor above or below one: it is present afterwards exactly when it was present before, with its old value |
| PlayerData.WrittenReplacesPlayersValue | src/main/java/com/flyaway/trackplayer/TrackPlayer.java:137 | saving at least one player removes a plain value stored at `players`, because the section replaces it |
| PlayerData.WrittenReplacesPlayerValue | src/main/java/com/flyaway/trackplayer/TrackPlayer.java:137 | saving a player removes a plain value stored at `players.<uuid>`, because the player's section replaces it |
| PlayerData.UpToDotOfJoin | src/main/java/com/flyaway/trackplayer/TrackPlayer.java:85 | the first segment of a path built as a segment, '.', rest is that segment |
| PlayerData.ChildOfStatPath | src/main/java/com/flyaway/trackplayer/TrackPlayer.java:134 | a counter path lies under `players` with the player's UUID text as its child name |
| PlayerData.ClashChild | src/main/java/com/flyaway/trackplayer/TrackPlayer.java:85 | a path under `players` that a save of a player replaces lies in that player's child |
| PlayerData.WrittenChildren | src/main/java/com/flyaway/trackplayer/TrackPlayer.java:127-139 | after a save the children under `players` are those from before plus the UUID texts of every cached player, including when a save replaced a plain value at a player's name |
| PlayerData.ParsePlayersAt | src/main/java/com/flyaway/trackplayer/TrackPlayer.java:84-95 | a player is loaded from a document exactly when its UUID text is a child under `players`, with its record read from there |
| PlayerData.LoadSavedPlayer | src/main/java/com/flyaway/trackplayer/TrackPlayer.java:84-139 | after a save each cached player loads back with its cached counters |
| PlayerData.LoadUnsavedPlayer | src/main/java/com/flyaway/trackplayer/TrackPlayer.java:84-139 | after a save each player that is not cached loads back as it did before the save |
| PlayerData.LoadAfterSave | src/main/java/com/flyaway/trackplayer/TrackPlayer.java:84-139 | after a save a player is loaded exactly when it was cached or loaded before, with the cached record taking precedence |
| PlayerData.SaveThenLoad | src/main/java/com/flyaway/trackplayer/TrackPlayer.java:84-139 | loading what savePlayerData wrote gives the saved cache on top of the players the document held before |
| PlayerData.NoPlayers | src/main/java/com/flyaway/trackplayer/TrackPlayer.java:84 | a document with nothing under `players` loads no players |
| PlayerData.SaveThenLoadFresh | src/main/java/com/flyaway/trackplayer/TrackPlayer.java:84-139 | saving into a document without players and loading it back gives exactly the saved cache |
| PlayerData.SaveThenLoadExact | src/main/java/com/flyaway/trackplayer/TrackPlayer.java:84-139 | when every player of the document is cached, as after loadPlayerData, loading what savePlayerData wrote gives exactly the cache |
| PlayerData.RestartLoadsCache | src/main/java/com/flyaway/trackplayer/TrackPlayer.java:76-139 | a fresh plugin loading what savePlayerData wrote from such a cache ends with exactly that cache, also when the load fails on a plain value at `players`, which only an empty save leaves |
| PlayerData.SaveIdempotent | src/main/java/com/flyaway/trackplayer/TrackPlayer.java:127-139 | saving the same cache a second time writes nothing new |
| Events.IsHostileMob | src/main/java/com/flyaway/trackplayer/TrackPlayer.java:190-334 | a mob is hostile exactly when it is in the hostile list; a player and any type outside the listed ones are never hostile |
| Events.AfterPlayerDeath | src/main/java/com/flyaway/trackplayer/TrackPlayer.java:161-172 | the victim's deaths go up by one; when there is a killer its player kills go up by one; nothing else changes, and only the victim and killer may be added |
| Events.AfterEntityDeath | src/main/java/com/flyaway/trackplayer/TrackPlayer.java:175-185 | a player's kill of a hostile non-player entity adds one mob kill to that player; every other death changes nothing |
| Events.AfterDeathIsCredits | src/main/java/com/flyaway/trackplayer/TrackPlayer.java:161-185 | each death event is the run of increments its handler makes, in order |
| Events.AfterDeathsIsCredits | src/main/java/com/flyaway/trackplayer/TrackPlayer.java:161-185 | a run of death events is the run of increments their handlers make, in order |
| Events.DeathsCount | src/main/java/com/flyaway/trackplayer/TrackPlayer.java:161-185 | after a run of death events each counter of each player has gone up by the number of increments the handlers made to it (while no counter passes 2147483647) |
| TrackPlayerPlugin.TrackPlayer.constructor | src/main/java/com/flyaway/trackplayer/TrackPlayer.java:30-35 | the plugin starts with an empty cache, nothing to save, no document and the given file on disk |
| TrackPlayerPlugin.TrackPlayer.LoadPlayerData | src/main/java/com/flyaway/trackplayer/TrackPlayer.java:76-97 | the document becomes the file; when `players` is absent or a section every child naming a UUID is put into the cache; a plain value at `players` fails and leaves the cache alone |
| TrackPlayerPlugin.LoadEntries | src/main/java/com/flyaway/trackplayer/TrackPlayer.java:85-96 | the load loop puts exactly the entries of the parseable child names over the existing cache |
| TrackPlayerPlugin.WriteEntries | src/main/java/com/flyaway/trackplayer/TrackPlayer.java:133-139 | the save loop writes the three counters of every cached player, keeps every other path except those above or below a written counter, and removes those |
| TrackPlayerPlugin.TrackPlayer.SavePlayerData | src/main/java/com/flyaway/trackplayer/TrackPlayer.java:127-149 | with a document, every cached counter is written into it and kept otherwise; only a successful write updates the file and clears needsSave; without a document nothing changes |
| TrackPlayerPlugin.TrackPlayer.MarkDataDirty | src/main/java/com/flyaway/trackplayer/TrackPlayer.java:156-158 | sets needsSave and changes nothing else |
| TrackPlayerPlugin.TrackPlayer.AutoSaveTick | src/main/java/com/flyaway/trackplayer/TrackPlayer.java:105-112 | saves exactly when needsSave is set, with the effect of savePlayerData, and otherwise changes nothing |
| TrackPlayerPlugin.TrackPlayer.IncrementDeaths | src/main/java/com/flyaway/trackplayer/TrackPlayer.java:339-344 | the player's deaths go up by one, nothing else in the cache changes, and needsSave is set |
| TrackPlayerPlugin.TrackPlayer.IncrementPlayerKills | src/main/java/com/flyaway/trackplayer/TrackPlayer.java:346-351 | the player's player kills go up by one, nothing else in the cache changes, and needsSave is set |
| TrackPlayerPlugin.TrackPlayer.IncrementMobKills | src/main/java/com/flyaway/trackplayer/TrackPlayer.java:353-358 | the player's mob kills go up by one, nothing else in the cache changes, and needsSave is set |
| TrackPlayerPlugin.TrackPlayer.GetDeaths | src/main/java/com/flyaway/trackplayer/TrackPlayer.java:360-363 | 0 for a player that is not cached, otherwise the cached deaths |
| TrackPlayerPlugin.TrackPlayer.GetPlayerKills | src/main/java/com/flyaway/trackplayer/TrackPlayer.java:365-368 | 0 for a player that is not cached, otherwise the cached player kills |
| TrackPlayerPlugin.TrackPlayer.GetMobKills | src/main/java/com/flyaway/trackplayer/TrackPlayer.java:370-373 | 0 for a player that is not cached, otherwise the cached mob kills |
| TrackPlayerPlugin.TrackPlayer.GetPlayerMobKills | src/main/java/com/flyaway/trackplayer/TrackPlayer.java:378-384 | a new map from every cached player to its mob kills; nothing changes |
| TrackPlayerPlugin.TrackPlayer.ResetAllMobKills | src/main/java/com/flyaway/trackplayer/TrackPlayer.java:389-395 | every cached player's mob kills become 0 with the other counters kept, then the cache is saved; needsSave stays set unless the write succeeds |
| TrackPlayerPlugin.TrackPlayer.CachedPlayersCount | src/main/java/com/flyaway/trackplayer/TrackPlayer.java:400-402 | the number of cached players |
| TrackPlayerPlugin.TrackPlayer.SaveStatus | src/main/java/com/flyaway/trackplayer/TrackPlayer.java:407-409 | the 'all saved' text exactly when needsSave is clear, the 'save needed' text exactly when it is set |
| TrackPlayerPlugin.TrackPlayer.OnPlayerDeath | src/main/java/com/flyaway/trackplayer/TrackPlayer.java:161-172 | the cache becomes AfterPlayerDeath of the old cache and needsSave is set |
| TrackPlayerPlugin.TrackPlayer.OnEntityDeath | src/main/java/com/flyaway/trackplayer/TrackPlayer.java:175-185 | the cache becomes AfterEntityDeath of the old cache; needsSave is set exactly when a player killed a hostile mob |
| Placeholder.Lower | src/main/java/com/flyaway/trackplayer/StatsPlaceholder.java:50 | each character is lower-cased on its own and the length is kept |
| Placeholder.LowerIdempotent | src/main/java/com/flyaway/trackplayer/StatsPlaceholder.java:50 | lower-casing a lower-cased parameter changes nothing |
| Placeholder.Digits | src/main/java/com/flyaway/trackplayer/StatsPlaceholder.java:51-53 | the decimal digits of a count: at least one digit and no leading zero |
| Placeholder.DecimalString | src/main/java/com/flyaway/trackplayer/StatsPlaceholder.java:51-53 | String.valueOf of an int: a leading '-' exactly for a negative value, then at least one digit and no leading zero |
| Placeholder.DigitsValueOfDigits | src/main/java/com/flyaway/trackplayer/StatsPlaceholder.java:51-53 | the digits of a count read back as that count |
| Placeholder.ReadDecimalString | src/main/java/com/flyaway/trackplayer/StatsPlaceholder.java:51-53 | the text of any value, negative ones included, reads back as that value |
| Placeholder.DecimalStringInjective | src/main/java/com/flyaway/trackplayer/StatsPlaceholder.java:51-53 | different values give different texts |
| Placeholder.CounterNamed | src/main/java/com/flyaway/trackplayer/StatsPlaceholder.java:50-54 | "kills" and "player_kills" name the player kills, "deaths" the deaths, "mob_kills" and "mobkills" the mob kills, and nothing else names a counter |
| Placeholder.OnRequest | src/main/java/com/flyaway/trackplayer/StatsPlaceholder.java:45-56 | "0" without a player; with one, a value exactly when the lower-cased parameter is a keyword, and then the decimal text of the player's named counter |
| Placeholder.OnPlaceholderRequest | src/main/java/com/flyaway/trackplayer/StatsPlaceholder.java:59-61 | the same answer as onRequest for the same player and parameter |
| Placeholder.OnRequestReadsBack | src/main/java/com/flyaway/trackplayer/StatsPlaceholder.java:45-56 | the answer for a keyword reads back as the named counter of the player |
| Placeholder.CaseInsensitive | src/main/java/com/flyaway/trackplayer/StatsPlaceholder.java:50 | a parameter and its lower-case form get the same answer |

## Left out

- Plugin lifecycle (onEnable, onDisable, getInstance), the configuration file and the scheduler. The auto-save timer is modelled as one tick (`AutoSaveTick`), and its interval is not modelled.
- File I/O: the YAML file is a map from dotted paths to ints. Whether a write succeeds is the parameter `writeOk`. A failed write is assumed to leave the file as it was. The default `playerdata.yml` copied when no file exists is the constructor's `stored` argument.
- PlayerData.Written, TrackPlayerPlugin.WriteEntries, PlayerData.WrittenKeepsOthers, TrackPlayerPlugin.TrackPlayer.LoadPlayerData: the document holds only int values at full paths. An empty section, such as `players.<uuid>: {}`, has no entry here, so the model loads nothing for it, while Java loads a zero record for it. The map can also hold a value at a path and values below that path at once, which a YAML tree cannot hold. Saving replaces plain values above or below a written counter, as `set` does in the tree.
- YAML values that are not ints: `getInt` of a string or list is not modelled, because every document value here is an int.
- Uuids.FromString: accepts only the canonical lower-case 8-4-4-4-12 form. java.util.UUID.fromString also accepts upper-case digits and shorter groups. Such names never occur in a file this plugin wrote, but a hand-edited file could hold them.
- Stats.CreditAllCounts, Events.DeathsCount: proved only while no counter passes 2147483647. Each single increment (`Inc32`) does model the wrap-around.
- Concurrency: the ConcurrentHashMap, the HashMap snapshot in savePlayerData and event handlers running beside the auto-save task are not modelled. Every operation is atomic here.
- PlayerStats aliasing: Java mutates the record object in place. Here the record is a value that is put back into the map. No other reference to a record escapes, so this gives the same map contents.
- registerShutdownHook and forceSave only call savePlayerData and log. Their effect is `SavePlayerData`.
- Logging: the log lines in load, save, auto-save and the debug line in isHostileMob are not modelled.
- EntityType: the enum is modelled by the constants the switch names plus `Unlisted` for every other value. isHostileMob returns false for all of those.
- Placeholder.Lower: lower-cases only A-Z and the Kelvin sign. Other characters whose lower-case form is not ASCII are kept as they are, which cannot change which keyword matches. A Turkish default locale, where 'I' lower-cases to a dotless i, is not modelled.
- Placeholder metadata (getIdentifier, getAuthor, getVersion, persist, canRegister) and the StatsCommand class are not part of this model.
- Players are given by UUID. The Bukkit Player and OfflinePlayer objects, and `getKiller`, are modelled as a UUID and an optional killer UUID.
