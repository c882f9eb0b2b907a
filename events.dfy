/**
 * Event attribution: which counters a death credits (onPlayerDeath,
 * onEntityDeath) and the hostile-mob allow-list (isHostileMob).
 */
module Events {
  import opened Wrappers
  import opened Uuids
  import opened Stats

  /**
   * org.bukkit.entity.EntityType: every constant isHostileMob names, and
   * Unlisted for any other constant (the switch's default branch).
   */
  datatype EntityType
    = Zombie | Drowned | Husk | ZombifiedPiglin | Zoglin | Skeleton | Stray
    | WitherSkeleton | Phantom | Spider | CaveSpider | Silverfish | Endermite | Creeper
    | Enderman | Witch | Blaze | Ghast | MagmaCube | Slime | Guardian
    | ElderGuardian | Shulker | ShulkerBullet | Vex | Vindicator | Evoker | Illusioner
    | Pillager | Ravager | Hoglin | PiglinBrute | Warden | Breeze | EnderDragon
    | Wither | Piglin | Cow | Pig | Sheep | Chicken | Rabbit
    | Fox | Panda | Bee | PolarBear | Goat | Frog | Tadpole
    | Sniffer | Camel | Wolf | Ocelot | Cat | Parrot | Axolotl
    | Horse | Donkey | Mule | SkeletonHorse | ZombieHorse | Llama | TraderLlama
    | Squid | GlowSquid | Dolphin | Turtle | Cod | Salmon | TropicalFish
    | Pufferfish | Bat | Strider | SnowGolem | IronGolem | Villager | WanderingTrader
    | Allay | ArmorStand | ItemFrame | GlowItemFrame | Painting | Minecart | Boat
    | EndCrystal | ExperienceOrb | AreaEffectCloud | Egg | EnderPearl | EyeOfEnder | FallingBlock
    | FireworkRocket | Item | LightningBolt | LlamaSpit | Player | Potion | SmallFireball
    | Snowball | SpectralArrow | Tnt | Trident | WitherSkull | FishingBobber | Marker
    | BlockDisplay | Interaction | TextDisplay | ItemDisplay
    | Unlisted

  /** The allow-list: the types isHostileMob answers true for. */
  const HostileMobs: set<EntityType> := {
    Zombie, Drowned, Husk, ZombifiedPiglin, Zoglin, Skeleton,
    Stray, WitherSkeleton, Phantom, Spider, CaveSpider, Silverfish,
    Endermite, Creeper, Enderman, Witch, Blaze, Ghast,
    MagmaCube, Slime, Guardian, ElderGuardian, Shulker, ShulkerBullet,
    Vex, Vindicator, Evoker, Illusioner, Pillager, Ravager,
    Hoglin, PiglinBrute, Warden, Breeze, EnderDragon, Wither,
    Piglin
  }

  /** isHostileMob: true for the allow-listed hostile mobs and bosses, false for everything else. */
  function IsHostileMob(t: EntityType): (r: bool)
    ensures r <==> t in HostileMobs
    ensures t == Player ==> !r
    ensures t.Unlisted? ==> !r
  {
    match t
    case Zombie | Drowned | Husk | ZombifiedPiglin | Zoglin | Skeleton
       | Stray | WitherSkeleton | Phantom | Spider | CaveSpider | Silverfish
       | Endermite | Creeper | Enderman | Witch | Blaze | Ghast
       | MagmaCube | Slime | Guardian | ElderGuardian | Shulker | ShulkerBullet
       | Vex | Vindicator | Evoker | Illusioner | Pillager | Ravager
       | Hoglin | PiglinBrute | Warden | Breeze | EnderDragon | Wither
       | Piglin
      => true
    case Cow | Pig | Sheep | Chicken | Rabbit | Fox
       | Panda | Bee | PolarBear | Goat | Frog | Tadpole
       | Sniffer | Camel | Wolf | Ocelot | Cat | Parrot
       | Axolotl | Horse | Donkey | Mule | SkeletonHorse | ZombieHorse
       | Llama | TraderLlama | Squid | GlowSquid | Dolphin | Turtle
       | Cod | Salmon | TropicalFish | Pufferfish | Bat | Strider
       | SnowGolem | IronGolem | Villager | WanderingTrader | Allay | ArmorStand
       | ItemFrame | GlowItemFrame | Painting | Minecart | Boat | EndCrystal
       | ExperienceOrb | AreaEffectCloud | Egg | EnderPearl | EyeOfEnder | FallingBlock
       | FireworkRocket | Item | LightningBolt | LlamaSpit | Player | Potion
       | SmallFireball | Snowball | SpectralArrow | Tnt | Trident | WitherSkull
       | FishingBobber | Marker | BlockDisplay | Interaction | TextDisplay | ItemDisplay
      => false
    case Unlisted => false
  }

  function KeyOf(killer: Option<Uuid>): set<Uuid> {
    if killer.Some? then {killer.value} else {}
  }

  /**
   * The cache after onPlayerDeath: the victim's deaths go up by one, and so
   * do the killer's player kills when there is a killer.
   */
  function AfterPlayerDeath(cache: Cache, victim: Uuid, killer: Option<Uuid>): (r: Cache)
    ensures r.Keys == cache.Keys + {victim} + KeyOf(killer)
    ensures forall v :: Count(r, v, Deaths)
                          == if v == victim then Inc32(Count(cache, v, Deaths)) else Count(cache, v, Deaths)
    ensures forall v :: Count(r, v, PlayerKills)
                          == if killer == Some(v) then Inc32(Count(cache, v, PlayerKills))
                             else Count(cache, v, PlayerKills)
    ensures forall v :: Count(r, v, MobKills) == Count(cache, v, MobKills)
  {
    var afterDeath := Credited(cache, victim, Deaths);
    if killer.Some? then Credited(afterDeath, killer.value, PlayerKills) else afterDeath
  }

  /**
   * The cache after onEntityDeath: the killer's mob kills go up by one when
   * there is a killer, the dead entity is not a player and it is a hostile
   * mob; otherwise nothing changes.
   */
  function AfterEntityDeath(cache: Cache, entityType: EntityType, killer: Option<Uuid>): (r: Cache)
    ensures killer.None? || entityType == Player || !IsHostileMob(entityType) ==> r == cache
    ensures killer.Some? && IsHostileMob(entityType) ==> r.Keys == cache.Keys + {killer.value}
    ensures forall v, c :: Count(r, v, c)
                             == if killer == Some(v) && c == MobKills && IsHostileMob(entityType)
                                then Inc32(Count(cache, v, c)) else Count(cache, v, c)
  {
    if killer.Some? && entityType != Player then
      if IsHostileMob(entityType) then Credited(cache, killer.value, MobKills) else cache
    else cache
  }

  /** A death as the server reports it. */
  datatype Death =
    | PlayerDeath(victim: Uuid, playerKiller: Option<Uuid>)
    | EntityDeath(entityType: EntityType, entityKiller: Option<Uuid>)

  /** The cache after the handler for a death has run. */
  function AfterDeath(cache: Cache, e: Death): Cache {
    match e
    case PlayerDeath(victim, killer) => AfterPlayerDeath(cache, victim, killer)
    case EntityDeath(t, killer) => AfterEntityDeath(cache, t, killer)
  }

  /** The increment calls a death leads to, in the order the handler makes them. */
  function CreditsOf(e: Death): seq<Credit> {
    match e
    case PlayerDeath(victim, killer) =>
      [Credit(victim, Deaths)] + (if killer.Some? then [Credit(killer.value, PlayerKills)] else [])
    case EntityDeath(t, killer) =>
      if killer.Some? && t != Player && IsHostileMob(t) then [Credit(killer.value, MobKills)] else []
  }

  lemma CreditAllOne(cache: Cache, credit: Credit)
    ensures CreditAll(cache, [credit]) == Credited(cache, credit.player, credit.counter)
  {
    assert [credit][1..] == [];
  }

  lemma CreditAllTwo(cache: Cache, first: Credit, second: Credit)
    ensures CreditAll(cache, [first, second])
         == Credited(Credited(cache, first.player, first.counter), second.player, second.counter)
  {
    assert [first, second][1..] == [second];
    CreditAllOne(Credited(cache, first.player, first.counter), second);
  }

  /** Each handler amounts to exactly its increment calls, and no others. */
  lemma AfterDeathIsCredits(cache: Cache, e: Death)
    ensures AfterDeath(cache, e) == CreditAll(cache, CreditsOf(e))
  {
    match e
    case PlayerDeath(victim, killer) =>
      if killer.Some? {
        assert CreditsOf(e) == [Credit(victim, Deaths), Credit(killer.value, PlayerKills)];
        CreditAllTwo(cache, Credit(victim, Deaths), Credit(killer.value, PlayerKills));
      } else {
        assert CreditsOf(e) == [Credit(victim, Deaths)];
        CreditAllOne(cache, Credit(victim, Deaths));
      }
    case EntityDeath(t, killer) =>
      if killer.Some? && t != Player && IsHostileMob(t) {
        assert CreditsOf(e) == [Credit(killer.value, MobKills)];
        CreditAllOne(cache, Credit(killer.value, MobKills));
      }
  }

  /** The cache after the handlers for a run of deaths have run, in order. */
  function AfterDeaths(cache: Cache, es: seq<Death>): Cache
    decreases |es|
  {
    if es == [] then cache else AfterDeaths(AfterDeath(cache, es[0]), es[1..])
  }

  /** The increment calls a run of deaths leads to, in order. */
  function CreditsOfAll(es: seq<Death>): seq<Credit>
    decreases |es|
  {
    if es == [] then [] else CreditsOf(es[0]) + CreditsOfAll(es[1..])
  }

  /** A run of deaths amounts to exactly the increment calls of its handlers, in order. */
  lemma {:induction false} AfterDeathsIsCredits(cache: Cache, es: seq<Death>)
    ensures AfterDeaths(cache, es) == CreditAll(cache, CreditsOfAll(es))
    decreases |es|
  {
    if es != [] {
      AfterDeathIsCredits(cache, es[0]);
      AfterDeathsIsCredits(AfterDeath(cache, es[0]), es[1..]);
      CreditAllAppend(cache, CreditsOf(es[0]), CreditsOfAll(es[1..]));
    }
  }

  /**
   * After a run of deaths, each counter of each player has gone up by the
   * number of increments the handlers made to it (while no counter passes
   * 2147483647).
   */
  lemma DeathsCount(cache: Cache, es: seq<Death>, u: Uuid, c: Counter)
    requires Count(cache, u, c) + Occurrences(CreditsOfAll(es), u, c) <= MaxInt32
    ensures Count(AfterDeaths(cache, es), u, c) == Count(cache, u, c) + Occurrences(CreditsOfAll(es), u, c)
  {
    AfterDeathsIsCredits(cache, es);
    CreditAllCounts(cache, CreditsOfAll(es), u, c);
  }
}
