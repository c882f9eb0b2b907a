/**
 * The player data document (playerdata.yml as a FileConfiguration) and the
 * layout TrackPlayer uses in it: one entry per player under `players`, keyed
 * by the canonical text of the player's UUID, holding the integer fields
 * `deaths`, `player_kills` and `mob_kills`.
 */
module PlayerData {
  import opened Wrappers
  import opened Uuids
  import opened Stats

  /** The document, flattened to the full dotted path of each integer value. */
  type Document = map<string, Int32>

  /** The section every player entry lives under, with its path separator. */
  const SectionPrefix := "players."

  function FieldName(c: Counter): (r: string)
    ensures '.' !in r
  {
    match c
    case Deaths => "deaths"
    case PlayerKills => "player_kills"
    case MobKills => "mob_kills"
  }

  /** Which counter a field name stores, if any. */
  function FieldOf(name: string): (r: Option<Counter>)
    ensures forall c :: r == Some(c) <==> FieldName(c) == name
  {
    if name == "deaths" then Some(Deaths)
    else if name == "player_kills" then Some(PlayerKills)
    else if name == "mob_kills" then Some(MobKills)
    else None
  }

  /** `"players." + uuidStr + ".deaths"` and its two siblings. */
  function FieldPath(child: string, c: Counter): string {
    SectionPrefix + child + "." + FieldName(c)
  }

  /** The path savePlayerData writes counter c of player u to. */
  function StatPath(u: Uuid, c: Counter): string {
    FieldPath(ToString(u), c)
  }

  /** FileConfiguration.getInt(path, def): the value at path, or def when there is none. */
  function GetInt(doc: Document, path: string, def: Int32): (r: Int32)
    ensures path in doc ==> r == doc[path]
    ensures path !in doc ==> r == def
  {
    if path in doc then doc[path] else def
  }

  /** The part of s before its first '.', or all of s when it has none. */
  function UpToDot(s: string): (r: string)
    ensures '.' !in r
    ensures |r| <= |s| && r == s[..|r|]
    ensures |r| == |s| || s[|r|] == '.'
  {
    if s == [] || s[0] == '.' then [] else [s[0]] + UpToDot(s[1..])
  }

  predicate UnderSection(k: string) {
    |k| >= |SectionPrefix| && k[..|SectionPrefix|] == SectionPrefix
  }

  /** The direct child of `players` that path k lies in. */
  function ChildName(k: string): string
    requires UnderSection(k)
  {
    UpToDot(k[|SectionPrefix|..])
  }

  /** getConfigurationSection("players").getKeys(false): the direct children of `players`. */
  function Children(doc: Document): (r: set<string>)
    ensures forall k :: k in doc && UnderSection(k) ==> ChildName(k) in r
    ensures forall s :: s in r ==> exists k :: k in doc && UnderSection(k) && ChildName(k) == s
    ensures forall s :: s in r ==> '.' !in s
  {
    set k | k in doc && UnderSection(k) :: ChildName(k)
  }

  /** The record loadPlayerData builds for the child named `child`, missing fields read as 0. */
  function StatsUnder(doc: Document, child: string): (r: PlayerStats)
    ensures forall c :: r.Get(c) == GetInt(doc, FieldPath(child, c), 0)
  {
    PlayerStats(GetInt(doc, FieldPath(child, Deaths), 0),
                GetInt(doc, FieldPath(child, PlayerKills), 0),
                GetInt(doc, FieldPath(child, MobKills), 0))
  }

  /** The identities that the names in `names` parse to; names that do not parse are skipped. */
  function ParsedIds(names: set<string>): set<Uuid> {
    set s | s in names && FromString(s).Some? :: FromString(s).value
  }

  /** The cache entries loadPlayerData puts for the children in `names`. */
  function Loaded(doc: Document, names: set<string>): Cache {
    map u | u in ParsedIds(names) :: StatsUnder(doc, ToString(u))
  }

  /**
   * A player is among the entries loaded from `names` exactly when its UUID
   * text is one of the names, and its record is read from under that name.
   */
  lemma LoadedAt(doc: Document, names: set<string>, u: Uuid)
    ensures u in Loaded(doc, names) <==> ToString(u) in names
    ensures u in Loaded(doc, names) ==> Loaded(doc, names)[u] == StatsUnder(doc, ToString(u))
  {
    ParseOfToString(u);
    if u in ParsedIds(names) {
      var s :| s in names && FromString(s).Some? && FromString(s).value == u;
      ToStringOfParse(s, u);
    }
  }

  /** Every player entry of the document, as loadPlayerData reads them into the cache. */
  function ParsePlayers(doc: Document): Cache {
    Loaded(doc, Children(doc))
  }

  /** No names, no entries. */
  lemma LoadedNothing(doc: Document)
    ensures Loaded(doc, {}) == map[]
  {
    forall u ensures u !in Loaded(doc, {}) {
      LoadedAt(doc, {}, u);
    }
  }

  /** Taking one more child name into account adds at most that child's entry. */
  lemma LoadedStep(doc: Document, names: set<string>, s: string)
    ensures FromString(s).None? ==> Loaded(doc, names + {s}) == Loaded(doc, names)
    ensures FromString(s).Some? ==>
      Loaded(doc, names + {s}) == Loaded(doc, names)[FromString(s).value := StatsUnder(doc, s)]
  {
    var before, after := Loaded(doc, names), Loaded(doc, names + {s});
    if FromString(s).Some? {
      ToStringOfParse(s, FromString(s).value);
    }
    forall u ensures (u in after <==> u in before || Some(u) == FromString(s)) &&
                     (u in after ==> after[u] == StatsUnder(doc, ToString(u))) &&
                     (u in before ==> before[u] == StatsUnder(doc, ToString(u))) {
      LoadedAt(doc, names, u);
      LoadedAt(doc, names + {s}, u);
      if ToString(u) == s { ParseOfToString(u); }
      if FromString(s) == Some(u) { ToStringOfParse(s, u); }
    }
  }

  /** The same step, on top of entries already in the cache: a name that parses adds its entry. */
  lemma LoadedAddOnto(cache: Cache, doc: Document, names: set<string>, s: string, u: Uuid)
    requires FromString(s) == Some(u)
    ensures cache + Loaded(doc, names + {s}) == (cache + Loaded(doc, names))[u := StatsUnder(doc, s)]
  {
    LoadedStep(doc, names, s);
  }

  /** A name that does not parse adds nothing. */
  lemma LoadedSkipOnto(cache: Cache, doc: Document, names: set<string>, s: string)
    requires FromString(s).None?
    ensures cache + Loaded(doc, names + {s}) == cache + Loaded(doc, names)
  {
    LoadedStep(doc, names, s);
  }

  /** The player and counter that a path stores, when it is one savePlayerData writes. */
  function StatKeyOf(k: string): Option<(Uuid, Counter)> {
    if |k| > 45 && k[..8] == SectionPrefix && k[44] == '.' &&
       FromString(k[8..44]).Some? && FieldOf(k[45..]).Some?
    then Some((FromString(k[8..44]).value, FieldOf(k[45..]).value))
    else None
  }

  /** How a counter path is laid out: `players.`, the UUID text, '.', the field name. */
  lemma StatPathShape(u: Uuid, c: Counter)
    ensures |StatPath(u, c)| == 45 + |FieldName(c)|
    ensures StatPath(u, c)[..8] == SectionPrefix
    ensures StatPath(u, c)[8..44] == ToString(u)
    ensures StatPath(u, c)[..44] == SectionPrefix + ToString(u)
    ensures StatPath(u, c)[44] == '.'
    ensures StatPath(u, c)[45..] == FieldName(c)
  {
    var t, f := ToString(u), FieldName(c);
    var k := SectionPrefix + t + "." + f;
    assert |t| == 36;
    assert k[..8] == SectionPrefix;
    assert k[8..44] == t;
    assert k[..44] == SectionPrefix + t;
    assert k[44] == '.';
    assert k[45..] == f;
  }

  /** Counter paths decode to the player and counter they were built from. */
  lemma StatPathDecodes(u: Uuid, c: Counter)
    ensures StatKeyOf(StatPath(u, c)) == Some((u, c))
  {
    StatPathShape(u, c);
    ParseOfToString(u);
  }

  /** A path that decodes is exactly the counter path it decodes to. */
  lemma StatKeyEncodes(k: string)
    requires StatKeyOf(k).Some?
    ensures k == StatPath(StatKeyOf(k).value.0, StatKeyOf(k).value.1)
  {
    var (u, c) := StatKeyOf(k).value;
    ToStringOfParse(k[8..44], u);
    assert k == k[..8] + k[8..44] + "." + k[45..];
  }

  /** Distinct (player, counter) pairs are stored at distinct paths. */
  lemma StatPathInjective(u: Uuid, c: Counter, v: Uuid, d: Counter)
    requires StatPath(u, c) == StatPath(v, d)
    ensures u == v && c == d
  {
    StatPathDecodes(u, c);
    StatPathDecodes(v, d);
  }

  /** k holds a counter of a player that is in the cache. */
  predicate IsCachedStatKey(cache: Cache, k: string) {
    StatKeyOf(k).Some? && StatKeyOf(k).value.0 in cache
  }

  /*
   * FileConfiguration.set. The document is a tree: a path holds either a
   * plain value or a section of further paths, never both.
   */

  /** Path a names a section that path b lies in. */
  predicate IsAncestor(a: string, b: string) {
    |a| < |b| && b[..|a|] == a && b[|a|] == '.'
  }

  /** Setting either of two paths replaces what is stored at the other. */
  predicate Clash(k: string, p: string) {
    IsAncestor(k, p) || IsAncestor(p, k)
  }

  /**
   * FileConfiguration.set(p, v): a plain value on the way to p gives way to
   * a section, and whatever was stored at or below p gives way to v.
   */
  function SetPath(doc: Document, p: string, v: Int32): (r: Document)
    ensures p in r && r[p] == v
    ensures forall k :: k in r && k != p ==> k in doc && !Clash(k, p) && r[k] == doc[k]
    ensures forall k :: k in doc && !Clash(k, p) ==> k in r
  {
    (map k | k in doc && !Clash(k, p) :: doc[k])[p := v]
  }

  /** No counter path lies inside another: field names hold no '.'. */
  lemma StatPathsApart(u: Uuid, c: Counter, v: Uuid, d: Counter)
    ensures !IsAncestor(StatPath(u, c), StatPath(v, d))
  {
    // The character after p in q would be a '.' inside q's field name.
    StatPathShape(u, c);
    StatPathShape(v, d);
  }

  /** k is one of the three counter paths of player u. */
  predicate IsStatPathOf(u: Uuid, k: string) {
    k == StatPath(u, Deaths) || k == StatPath(u, PlayerKills) || k == StatPath(u, MobKills)
  }

  /** Writing one of u's counters replaces what is stored at k. */
  predicate ClashesPlayer(u: Uuid, k: string) {
    Clash(k, StatPath(u, Deaths)) || Clash(k, StatPath(u, PlayerKills)) || Clash(k, StatPath(u, MobKills))
  }

  /** Writing the counters of some cached player replaces what is stored at k. */
  ghost predicate Clashes(cache: Cache, k: string) {
    exists u :: u in cache && ClashesPlayer(u, k)
  }

  /** A player's three counter paths are distinct and none lies inside another. */
  lemma OwnPathsApart(u: Uuid)
    ensures forall c, d :: c != d ==> StatPath(u, c) != StatPath(u, d) && !Clash(StatPath(u, c), StatPath(u, d))
  {
    forall c, d | c != d
      ensures StatPath(u, c) != StatPath(u, d) && !Clash(StatPath(u, c), StatPath(u, d))
    {
      StatPathShape(u, c);
      StatPathShape(u, d);
      StatPathsApart(u, c, u, d);
      StatPathsApart(u, d, u, c);
    }
  }

  /** The document after the three `playerData.set` calls for one player: its counters are stored. */
  function WithRecord(doc: Document, u: Uuid, stats: PlayerStats): (r: Document)
    ensures forall c :: StatPath(u, c) in r && r[StatPath(u, c)] == stats.Get(c)
  {
    OwnPathsApart(u);
    SetPath(SetPath(SetPath(doc, StatPath(u, Deaths), stats.deaths),
                    StatPath(u, PlayerKills), stats.playerKills),
            StatPath(u, MobKills), stats.mobKills)
  }

  /**
   * The three sets for one player keep every other path, unless it lay
   * above or below one of the player's counters: then it is gone.
   */
  lemma WithRecordOthers(doc: Document, u: Uuid, stats: PlayerStats, k: string)
    requires !IsStatPathOf(u, k)
    ensures k in WithRecord(doc, u, stats) <==> k in doc && !ClashesPlayer(u, k)
    ensures k in WithRecord(doc, u, stats) ==> WithRecord(doc, u, stats)[k] == doc[k]
  {
  }

  /**
   * `after` is `before` with the three counters of every cached player
   * written at their paths: the effect of the loop in savePlayerData on the
   * in-memory document. Every other path is kept, except those that lay
   * above or below a written counter, which are gone.
   */
  ghost predicate Written(before: Document, cache: Cache, after: Document) {
    && (forall u, c :: u in cache ==> StatPath(u, c) in after && after[StatPath(u, c)] == cache[u].Get(c))
    && (forall k :: k in after ==> IsCachedStatKey(cache, k) || (k in before && !Clashes(cache, k)))
    && (forall k :: k in before && !IsCachedStatKey(cache, k) && !Clashes(cache, k) ==>
          k in after && after[k] == before[k])
  }

  /** With nothing written yet the document is unchanged. */
  lemma WrittenNothing(doc: Document)
    ensures Written(doc, map[], doc)
  {
  }

  /** The three paths of a player's record, and no others, are cached counters once the player is cached. */
  lemma CachedStatKeyOfPlayer(cache: Cache, u: Uuid, stats: PlayerStats, k: string)
    ensures IsCachedStatKey(cache[u := stats], k) <==> IsCachedStatKey(cache, k) || IsStatPathOf(u, k)
  {
    StatPathDecodes(u, Deaths);
    StatPathDecodes(u, PlayerKills);
    StatPathDecodes(u, MobKills);
    if StatKeyOf(k).Some? && StatKeyOf(k).value.0 == u {
      StatKeyEncodes(k);
      assert k == StatPath(u, StatKeyOf(k).value.1);
    }
  }

  /** Caching one more player adds the paths that clash with its counters. */
  lemma ClashesOfPlayer(cache: Cache, u: Uuid, stats: PlayerStats, k: string)
    ensures Clashes(cache[u := stats], k) <==> Clashes(cache, k) || ClashesPlayer(u, k)
  {
    if Clashes(cache[u := stats], k) {
      var v :| v in cache[u := stats] && ClashesPlayer(v, k);
      assert v == u || v in cache;
    }
    if Clashes(cache, k) {
      var v :| v in cache && ClashesPlayer(v, k);
      assert v in cache[u := stats];
    }
    if ClashesPlayer(u, k) {
      assert u in cache[u := stats];
    }
  }

  /** No counter path of another player clashes with u's counters. */
  lemma OtherPlayerApart(u: Uuid, v: Uuid, c: Counter)
    requires u != v
    ensures !IsStatPathOf(u, StatPath(v, c)) && !ClashesPlayer(u, StatPath(v, c))
  {
    forall d ensures StatPath(v, c) != StatPath(u, d) {
      if StatPath(v, c) == StatPath(u, d) { StatPathInjective(v, c, u, d); }
    }
    forall d ensures !Clash(StatPath(v, c), StatPath(u, d)) {
      StatPathsApart(u, d, v, c);
      StatPathsApart(v, c, u, d);
    }
  }

  lemma WrittenStepValues(before: Document, written: Cache, doc: Document, u: Uuid, stats: PlayerStats)
    requires Written(before, written, doc)
    ensures forall v, c :: v in written[u := stats] ==>
              StatPath(v, c) in WithRecord(doc, u, stats) &&
              WithRecord(doc, u, stats)[StatPath(v, c)] == written[u := stats][v].Get(c)
  {
    forall v, c | v in written && v != u
      ensures StatPath(v, c) in WithRecord(doc, u, stats) &&
              WithRecord(doc, u, stats)[StatPath(v, c)] == written[v].Get(c)
    {
      OtherPlayerApart(u, v, c);
      WithRecordOthers(doc, u, stats, StatPath(v, c));
    }
  }

  lemma WrittenStepNoOthers(before: Document, written: Cache, doc: Document, u: Uuid, stats: PlayerStats)
    requires Written(before, written, doc)
    ensures forall k :: k in WithRecord(doc, u, stats) ==>
              IsCachedStatKey(written[u := stats], k) || (k in before && !Clashes(written[u := stats], k))
  {
    forall k | k in WithRecord(doc, u, stats)
      ensures IsCachedStatKey(written[u := stats], k) || (k in before && !Clashes(written[u := stats], k))
    {
      CachedStatKeyOfPlayer(written, u, stats, k);
      ClashesOfPlayer(written, u, stats, k);
      if !IsStatPathOf(u, k) {
        WithRecordOthers(doc, u, stats, k);
      }
    }
  }

  lemma WrittenStepKeeps(before: Document, written: Cache, doc: Document, u: Uuid, stats: PlayerStats)
    requires Written(before, written, doc)
    ensures forall k :: k in before && !IsCachedStatKey(written[u := stats], k) && !Clashes(written[u := stats], k) ==>
              k in WithRecord(doc, u, stats) && WithRecord(doc, u, stats)[k] == before[k]
  {
    forall k | k in before && !IsCachedStatKey(written[u := stats], k) && !Clashes(written[u := stats], k)
      ensures k in WithRecord(doc, u, stats) && WithRecord(doc, u, stats)[k] == before[k]
    {
      CachedStatKeyOfPlayer(written, u, stats, k);
      ClashesOfPlayer(written, u, stats, k);
      WithRecordOthers(doc, u, stats, k);
    }
  }

  /** Writing one more player's three counters extends what has been written. */
  lemma WrittenStep(before: Document, written: Cache, doc: Document, u: Uuid, stats: PlayerStats)
    requires Written(before, written, doc)
    ensures Written(before, written[u := stats], WithRecord(doc, u, stats))
  {
    WrittenStepValues(before, written, doc, u, stats);
    WrittenStepNoOthers(before, written, doc, u, stats);
    WrittenStepKeeps(before, written, doc, u, stats);
  }

  /**
   * A path that is neither a cached counter nor above or below one has the
   * same value (or absence) after a save.
   */
  lemma WrittenKeepsOthers(before: Document, cache: Cache, after: Document, k: string)
    requires Written(before, cache, after)
    requires !IsCachedStatKey(cache, k) && !Clashes(cache, k)
    ensures k in after <==> k in before
    ensures k in after ==> after[k] == before[k]
  {
  }

  /**
   * Saving a player replaces a plain value stored at `players`: the
   * section takes its place.
   */
  lemma WrittenReplacesPlayersValue(before: Document, cache: Cache, after: Document)
    requires Written(before, cache, after)
    requires cache != map[]
    ensures "players" !in after
  {
    var u :| u in cache;
    StatPathShape(u, Deaths);
    assert IsAncestor("players", StatPath(u, Deaths));
    assert ClashesPlayer(u, "players");
  }

  /** Saving a player replaces a plain value stored where its section goes. */
  lemma WrittenReplacesPlayerValue(before: Document, cache: Cache, after: Document, u: Uuid)
    requires Written(before, cache, after)
    requires u in cache
    ensures SectionPrefix + ToString(u) !in after
  {
    StatPathShape(u, Deaths);
    var k := SectionPrefix + ToString(u);
    assert IsAncestor(k, StatPath(u, Deaths));
    assert ClashesPlayer(u, k);
    assert StatKeyOf(k).None?;
  }

  lemma UpToDotOfJoin(a: string, b: string)
    requires '.' !in a
    ensures UpToDot(a + "." + b) == a
    decreases |a|
  {
    if a != [] {
      assert (a + "." + b)[1..] == a[1..] + "." + b;
      UpToDotOfJoin(a[1..], b);
    }
  }

  /** A counter path lies in the child named by the player's UUID text. */
  lemma ChildOfStatPath(u: Uuid, c: Counter)
    ensures UnderSection(StatPath(u, c)) && ChildName(StatPath(u, c)) == ToString(u)
  {
    var k := StatPath(u, c);
    assert k[..|SectionPrefix|] == SectionPrefix;
    assert k[|SectionPrefix|..] == ToString(u) + "." + FieldName(c);
    UpToDotOfJoin(ToString(u), FieldName(c));
  }

  /** A path under `players` that clashes with a counter of u lies in u's child. */
  lemma ClashChild(k: string, u: Uuid, c: Counter)
    requires UnderSection(k) && Clash(k, StatPath(u, c))
    ensures ChildName(k) == ToString(u)
  {
    var p, t := StatPath(u, c), ToString(u);
    StatPathShape(u, c);
    if IsAncestor(p, k) {
      assert k[8..] == t + "." + k[45..];
      UpToDotOfJoin(t, k[45..]);
    } else {
      // The only '.' of p past `players.` is the one at 44.
      assert |k| == 44;
      assert k == p[..44];
      assert k[8..] == t;
    }
  }

  /** Saving adds exactly the cached players' names to the children of `players`. */
  lemma WrittenChildren(before: Document, cache: Cache, after: Document)
    requires Written(before, cache, after)
    ensures Children(after) == Children(before) + set u | u in cache :: ToString(u)
  {
    forall s | s in Children(after) ensures s in Children(before) || exists u :: u in cache && ToString(u) == s {
      var k :| k in after && UnderSection(k) && ChildName(k) == s;
      if IsCachedStatKey(cache, k) {
        var (u, c) := StatKeyOf(k).value;
        StatKeyEncodes(k);
        ChildOfStatPath(u, c);
      }
    }
    forall s | s in Children(before) ensures s in Children(after) {
      var k :| k in before && UnderSection(k) && ChildName(k) == s;
      if IsCachedStatKey(cache, k) {
        var (u, c) := StatKeyOf(k).value;
        StatKeyEncodes(k);
        assert k in after;
      } else if Clashes(cache, k) {
        var u :| u in cache && ClashesPlayer(u, k);
        var c :| Clash(k, StatPath(u, c));
        ClashChild(k, u, c);
        ChildOfStatPath(u, Deaths);
        assert StatPath(u, Deaths) in after;
      }
    }
    forall u | u in cache ensures ToString(u) in Children(after) {
      ChildOfStatPath(u, Deaths);
    }
  }

  /** A player is loaded exactly when its UUID text is a child of `players`, with the fields stored there. */
  lemma ParsePlayersAt(doc: Document, u: Uuid)
    ensures u in ParsePlayers(doc) <==> ToString(u) in Children(doc)
    ensures u in ParsePlayers(doc) ==> ParsePlayers(doc)[u] == StatsUnder(doc, ToString(u))
  {
    LoadedAt(doc, Children(doc), u);
  }

  /** After a save, every cached player loads back with its cached record. */
  lemma LoadSavedPlayer(before: Document, cache: Cache, after: Document, u: Uuid)
    requires Written(before, cache, after)
    requires u in cache
    ensures u in ParsePlayers(after) && ParsePlayers(after)[u] == cache[u]
  {
    ChildOfStatPath(u, Deaths);
    ParsePlayersAt(after, u);
    var t := ToString(u);
    assert FieldPath(t, Deaths) == StatPath(u, Deaths);
    assert FieldPath(t, PlayerKills) == StatPath(u, PlayerKills);
    assert FieldPath(t, MobKills) == StatPath(u, MobKills);
  }

  /** After a save, every player that was not cached loads back as it did before. */
  lemma LoadUnsavedPlayer(before: Document, cache: Cache, after: Document, u: Uuid)
    requires Written(before, cache, after)
    requires u !in cache
    ensures u in ParsePlayers(after) <==> u in ParsePlayers(before)
    ensures u in ParsePlayers(after) ==> ParsePlayers(after)[u] == ParsePlayers(before)[u]
  {
    WrittenChildren(before, cache, after);
    ParsePlayersAt(after, u);
    ParsePlayersAt(before, u);
    forall v | v in cache ensures ToString(v) != ToString(u) {
      if ToString(v) == ToString(u) { ToStringInjective(v, u); }
    }
    var t := ToString(u);
    forall c ensures GetInt(after, FieldPath(t, c), 0) == GetInt(before, FieldPath(t, c), 0) {
      assert FieldPath(t, c) == StatPath(u, c);
      StatPathDecodes(u, c);
      forall v | v in cache ensures !ClashesPlayer(v, StatPath(u, c)) {
        OtherPlayerApart(v, u, c);
      }
      WrittenKeepsOthers(before, cache, after, StatPath(u, c));
    }
    assert StatsUnder(after, t) == StatsUnder(before, t);
  }

  /** After a save, each player loads back from the cache if it is cached, and as before otherwise. */
  lemma LoadAfterSave(before: Document, cache: Cache, after: Document, u: Uuid)
    requires Written(before, cache, after)
    ensures u in ParsePlayers(after) <==> u in ParsePlayers(before) + cache
    ensures u in ParsePlayers(after) ==> ParsePlayers(after)[u] == (ParsePlayers(before) + cache)[u]
  {
    if u in cache {
      LoadSavedPlayer(before, cache, after, u);
    } else {
      LoadUnsavedPlayer(before, cache, after, u);
    }
  }

  /**
   * Load is the inverse of save: loading a document that savePlayerData
   * wrote gives the cache that was saved, on top of whatever players the
   * document held before.
   */
  lemma SaveThenLoad(before: Document, cache: Cache, after: Document)
    requires Written(before, cache, after)
    ensures ParsePlayers(after) == ParsePlayers(before) + cache
  {
    var lhs, rhs := ParsePlayers(after), ParsePlayers(before) + cache;
    forall u ensures (u in lhs <==> u in rhs) && (u in lhs ==> lhs[u] == rhs[u]) {
      LoadAfterSave(before, cache, after, u);
    }
    SameEntries(lhs, rhs);
  }

  /** Two caches with the same players and the same records are equal. */
  lemma SameEntries(lhs: Cache, rhs: Cache)
    requires forall u :: (u in lhs <==> u in rhs) && (u in lhs ==> lhs[u] == rhs[u])
    ensures lhs == rhs
  {
    assert lhs.Keys == rhs.Keys;
  }

  /** Entries whose keys the second map covers give way to it entirely. */
  lemma UnionCovered(m: Cache, cache: Cache)
    requires m.Keys <= cache.Keys
    ensures m + cache == cache
  {
    assert (m + cache).Keys == cache.Keys;
  }

  /**
   * When every player of the document is cached, as after loadPlayerData,
   * loading what savePlayerData wrote gives exactly the cache.
   */
  lemma SaveThenLoadExact(before: Document, cache: Cache, after: Document)
    requires Written(before, cache, after)
    requires ParsePlayers(before).Keys <= cache.Keys
    ensures ParsePlayers(after) == cache
  {
    SaveThenLoad(before, cache, after);
    UnionCovered(ParsePlayers(before), cache);
  }

  /**
   * The cache a fresh plugin loads from what savePlayerData wrote, when
   * every player of the document was cached: loading fails only on a
   * plain value at `players`, which is left only when nothing was saved.
   * Either way the loaded cache is the saved one.
   */
  lemma RestartLoadsCache(before: Document, cache: Cache, after: Document)
    requires Written(before, cache, after)
    requires ParsePlayers(before).Keys <= cache.Keys
    ensures (if "players" !in after then map[] + ParsePlayers(after) else map[]) == cache
  {
    SaveThenLoadExact(before, cache, after);
    if cache != map[] {
      WrittenReplacesPlayersValue(before, cache, after);
    }
    LoadedOrEmpty(ParsePlayers(after), cache, "players" !in after);
  }

  /** The case split behind RestartLoadsCache, on plain maps. */
  lemma LoadedOrEmpty(parsed: Cache, cache: Cache, ok: bool)
    requires parsed == cache
    requires cache != map[] ==> ok
    ensures (if ok then map[] + parsed else map[]) == cache
  {
    assert map[] + parsed == parsed;
  }

  /** A document with nothing under `players` loads no player. */
  lemma NoPlayers(doc: Document)
    requires Children(doc) == {}
    ensures ParsePlayers(doc) == map[]
  {
    forall u ensures u !in ParsePlayers(doc) {
      ParsePlayersAt(doc, u);
    }
  }

  /** In particular, a document with no player entries reloads to exactly the saved cache. */
  lemma SaveThenLoadFresh(before: Document, cache: Cache, after: Document)
    requires Children(before) == {}
    requires Written(before, cache, after)
    ensures ParsePlayers(after) == cache
  {
    SaveThenLoad(before, cache, after);
    NoPlayers(before);
  }

  /** Saving the same cache a second time leaves the document as it is. */
  lemma SaveIdempotent(before: Document, cache: Cache, after: Document)
    requires Written(before, cache, after)
    ensures Written(after, cache, after)
  {
  }
}
