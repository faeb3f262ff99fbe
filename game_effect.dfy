/**
 * The game-effect kinds of shared/src/lib.rs:57-148.  `GameEffectEnum` is a
 * closed enum whose derived string conversions map each variant to a static
 * string (`IntoStaticStr`) and parse such a string back (`EnumString`).
 * `ToStr` is that static-string table and `Parse` the derived parser, whose
 * arms `MatchArms` are a second literal table.  The lemmas check the two
 * tables against each other, one group of arms at a time, and derive that
 * ToStr is injective, that parsing inverts it, and that nothing outside its
 * image parses.  Module EffectNames relates each entry to the variant's
 * Rust identifier.
 */
module GameEffect {
  import Wrappers

  /** The effect kinds, in declaration order. */
  datatype GameEffectEnum =
    | None
    | Electrocution
    | Frozen
    | OnFire
    | Poison
    | Berserk
    | Charm
    | Polymorph
    | PolymorphRandom
    | Blindness
    | Telepathy
    | Teleportation
    | Regeneration
    | Levitation
    | MovementSlower
    | Farts
    | Drunk
    | BreathUnderwater
    | Radioactive
    | Wet
    | Oiled
    | Bloody
    | Slimy
    | CriticalHitBoost
    | Confusion
    | MeleeCounter
    | WormAttractor
    | WormDetractor
    | FoodPoisoning
    | FriendThundermage
    | FriendFiremage
    | InternalFire
    | InternalIce
    | Jarate
    | Knockback
    | KnockbackImmunity
    | MovementSlower2X
    | MovementFaster
    | StainsDropFaster
    | SavingGrace
    | DamageMultiplier
    | HealingBlood
    | Respawn
    | ProtectionFire
    | ProtectionRadioactivity
    | ProtectionExplosion
    | ProtectionMelee
    | ProtectionElectricity
    | Teleportitis
    | StainlessArmour
    | GlobalGore
    | EditWandsEverywhere
    | ExplodingCorpseShots
    | ExplodingCorpse
    | ExtraMoney
    | ExtraMoneyTrickKill
    | HoverBoost
    | ProjectileHoming
    | AbilityActionsMaterialized
    | NoDamageFlash
    | NoSlimeSlowdown
    | MovementFaster2X
    | NoWandEditing
    | LowHpDamageBoost
    | FasterLevitation
    | StunProtectionElectricity
    | StunProtectionFreeze
    | IronStomach
    | ProtectionAll
    | Invisibility
    | RemoveFogOfWar
    | ManaRegeneration
    | ProtectionDuringTeleport
    | ProtectionPolymorph
    | ProtectionFreeze
    | FrozenSpeedUp
    | UnstableTeleportation
    | PolymorphUnstable
    | Custom
    | AllergyRadioactive
    | RainbowFarts
    | Weakness
    | ProtectionFoodPoisoning
    | NoHeal
    | ProtectionEdges
    | ProtectionProjectile
    | PolymorphCessation
    | Last  // declared `_Last`

  /** The static string of each variant (the derived `IntoStaticStr`, SCREAMING_SNAKE_CASE). */
  function ToStr(e: GameEffectEnum): string
  {
    match e
    case None => "NONE"
    case Electrocution => "ELECTROCUTION"
    case Frozen => "FROZEN"
    case OnFire => "ON_FIRE"
    case Poison => "POISON"
    case Berserk => "BERSERK"
    case Charm => "CHARM"
    case Polymorph => "POLYMORPH"
    case PolymorphRandom => "POLYMORPH_RANDOM"
    case Blindness => "BLINDNESS"
    case Telepathy => "TELEPATHY"
    case Teleportation => "TELEPORTATION"
    case Regeneration => "REGENERATION"
    case Levitation => "LEVITATION"
    case MovementSlower => "MOVEMENT_SLOWER"
    case Farts => "FARTS"
    case Drunk => "DRUNK"
    case BreathUnderwater => "BREATH_UNDERWATER"
    case Radioactive => "RADIOACTIVE"
    case Wet => "WET"
    case Oiled => "OILED"
    case Bloody => "BLOODY"
    case Slimy => "SLIMY"
    case CriticalHitBoost => "CRITICAL_HIT_BOOST"
    case Confusion => "CONFUSION"
    case MeleeCounter => "MELEE_COUNTER"
    case WormAttractor => "WORM_ATTRACTOR"
    case WormDetractor => "WORM_DETRACTOR"
    case FoodPoisoning => "FOOD_POISONING"
    case FriendThundermage => "FRIEND_THUNDERMAGE"
    case FriendFiremage => "FRIEND_FIREMAGE"
    case InternalFire => "INTERNAL_FIRE"
    case InternalIce => "INTERNAL_ICE"
    case Jarate => "JARATE"
    case Knockback => "KNOCKBACK"
    case KnockbackImmunity => "KNOCKBACK_IMMUNITY"
    case MovementSlower2X => "MOVEMENT_SLOWER2_X"
    case MovementFaster => "MOVEMENT_FASTER"
    case StainsDropFaster => "STAINS_DROP_FASTER"
    case SavingGrace => "SAVING_GRACE"
    case DamageMultiplier => "DAMAGE_MULTIPLIER"
    case HealingBlood => "HEALING_BLOOD"
    case Respawn => "RESPAWN"
    case ProtectionFire => "PROTECTION_FIRE"
    case ProtectionRadioactivity => "PROTECTION_RADIOACTIVITY"
    case ProtectionExplosion => "PROTECTION_EXPLOSION"
    case ProtectionMelee => "PROTECTION_MELEE"
    case ProtectionElectricity => "PROTECTION_ELECTRICITY"
    case Teleportitis => "TELEPORTITIS"
    case StainlessArmour => "STAINLESS_ARMOUR"
    case GlobalGore => "GLOBAL_GORE"
    case EditWandsEverywhere => "EDIT_WANDS_EVERYWHERE"
    case ExplodingCorpseShots => "EXPLODING_CORPSE_SHOTS"
    case ExplodingCorpse => "EXPLODING_CORPSE"
    case ExtraMoney => "EXTRA_MONEY"
    case ExtraMoneyTrickKill => "EXTRA_MONEY_TRICK_KILL"
    case HoverBoost => "HOVER_BOOST"
    case ProjectileHoming => "PROJECTILE_HOMING"
    case AbilityActionsMaterialized => "ABILITY_ACTIONS_MATERIALIZED"
    case NoDamageFlash => "NO_DAMAGE_FLASH"
    case NoSlimeSlowdown => "NO_SLIME_SLOWDOWN"
    case MovementFaster2X => "MOVEMENT_FASTER2_X"
    case NoWandEditing => "NO_WAND_EDITING"
    case LowHpDamageBoost => "LOW_HP_DAMAGE_BOOST"
    case FasterLevitation => "FASTER_LEVITATION"
    case StunProtectionElectricity => "STUN_PROTECTION_ELECTRICITY"
    case StunProtectionFreeze => "STUN_PROTECTION_FREEZE"
    case IronStomach => "IRON_STOMACH"
    case ProtectionAll => "PROTECTION_ALL"
    case Invisibility => "INVISIBILITY"
    case RemoveFogOfWar => "REMOVE_FOG_OF_WAR"
    case ManaRegeneration => "MANA_REGENERATION"
    case ProtectionDuringTeleport => "PROTECTION_DURING_TELEPORT"
    case ProtectionPolymorph => "PROTECTION_POLYMORPH"
    case ProtectionFreeze => "PROTECTION_FREEZE"
    case FrozenSpeedUp => "FROZEN_SPEED_UP"
    case UnstableTeleportation => "UNSTABLE_TELEPORTATION"
    case PolymorphUnstable => "POLYMORPH_UNSTABLE"
    case Custom => "CUSTOM"
    case AllergyRadioactive => "ALLERGY_RADIOACTIVE"
    case RainbowFarts => "RAINBOW_FARTS"
    case Weakness => "WEAKNESS"
    case ProtectionFoodPoisoning => "PROTECTION_FOOD_POISONING"
    case NoHeal => "NO_HEAL"
    case ProtectionEdges => "PROTECTION_EDGES"
    case ProtectionProjectile => "PROTECTION_PROJECTILE"
    case PolymorphCessation => "POLYMORPH_CESSATION"
    case Last => "LAST"
  }

  /**
   * The derived `FromStr` (`EnumString`): the variant whose serialized
   * string is `s`, or no variant (strum's `ParseError::VariantNotFound`).
   * Its arms are the table `MatchArms`, which is written out independently
   * of ToStr; the two contracts are what the lemmas below prove of that
   * table against ToStr, so a wrong row in either table fails them.
   */
  function Parse(s: string): (r: Wrappers.Option<GameEffectEnum>)
    ensures r.Some? ==> ToStr(r.value) == s
    ensures r.None? ==> forall v :: ToStr(v) != s
  {
    MatchArmsSound(s);
    MatchArmsCoverAll();
    MatchArms(s)
  }

  /**
   * The arms of the derived `FromStr`: one arm per variant, from its
   * serialized string to the variant, and no variant for any other string.
   * The derive emits one `match` over the literal strings; here the arms are
   * grouped by the length of their string, which picks the same arm, since
   * strings of different lengths never match.
   */
  function MatchArms(s: string): Wrappers.Option<GameEffectEnum>
  {
    match |s|
    case 3 => ArmsOfLength3(s)
    case 4 => ArmsOfLength4(s)
    case 5 => ArmsOfLength5(s)
    case 6 => ArmsOfLength6(s)
    case 7 => ArmsOfLength7(s)
    case 8 => ArmsOfLength8(s)
    case 9 => ArmsOfLength9(s)
    case 10 => ArmsOfLength10(s)
    case 11 => ArmsOfLength11(s)
    case 12 => ArmsOfLength12(s)
    case 13 => ArmsOfLength13(s)
    case 14 => ArmsOfLength14(s)
    case 15 => ArmsOfLength15(s)
    case 16 => ArmsOfLength16(s)
    case 17 => ArmsOfLength17(s)
    case 18 => ArmsOfLength18(s)
    case 19 => ArmsOfLength19(s)
    case 20 => ArmsOfLength20(s)
    case 21 => ArmsOfLength21(s)
    case 22 => ArmsOfLength22(s)
    case 24 => ArmsOfLength24(s)
    case 25 => ArmsOfLength25(s)
    case 26 => ArmsOfLength26(s)
    case 27 => ArmsOfLength27(s)
    case 28 => ArmsOfLength28(s)
    case _ => Wrappers.Option.None
  }

  /** The arms whose string has 3 characters. */
  function ArmsOfLength3(s: string): Wrappers.Option<GameEffectEnum>
  {
    match s
    case "WET" => Wrappers.Some(GameEffectEnum.Wet)
    case _ => Wrappers.Option.None
  }

  /** The arms whose string has 4 characters. */
  function ArmsOfLength4(s: string): Wrappers.Option<GameEffectEnum>
  {
    match s
    case "NONE" => Wrappers.Some(GameEffectEnum.None)
    case "LAST" => Wrappers.Some(GameEffectEnum.Last)
    case _ => Wrappers.Option.None
  }

  /** The arms whose string has 5 characters. */
  function ArmsOfLength5(s: string): Wrappers.Option<GameEffectEnum>
  {
    match s
    case "CHARM" => Wrappers.Some(GameEffectEnum.Charm)
    case "FARTS" => Wrappers.Some(GameEffectEnum.Farts)
    case "DRUNK" => Wrappers.Some(GameEffectEnum.Drunk)
    case "OILED" => Wrappers.Some(GameEffectEnum.Oiled)
    case "SLIMY" => Wrappers.Some(GameEffectEnum.Slimy)
    case _ => Wrappers.Option.None
  }

  /** The arms whose string has 6 characters. */
  function ArmsOfLength6(s: string): Wrappers.Option<GameEffectEnum>
  {
    match s
    case "FROZEN" => Wrappers.Some(GameEffectEnum.Frozen)
    case "POISON" => Wrappers.Some(GameEffectEnum.Poison)
    case "BLOODY" => Wrappers.Some(GameEffectEnum.Bloody)
    case "JARATE" => Wrappers.Some(GameEffectEnum.Jarate)
    case "CUSTOM" => Wrappers.Some(GameEffectEnum.Custom)
    case _ => Wrappers.Option.None
  }

  /** The arms whose string has 7 characters. */
  function ArmsOfLength7(s: string): Wrappers.Option<GameEffectEnum>
  {
    match s
    case "ON_FIRE" => Wrappers.Some(GameEffectEnum.OnFire)
    case "BERSERK" => Wrappers.Some(GameEffectEnum.Berserk)
    case "RESPAWN" => Wrappers.Some(GameEffectEnum.Respawn)
    case "NO_HEAL" => Wrappers.Some(GameEffectEnum.NoHeal)
    case _ => Wrappers.Option.None
  }

  /** The arms whose string has 8 characters. */
  function ArmsOfLength8(s: string): Wrappers.Option<GameEffectEnum>
  {
    match s
    case "WEAKNESS" => Wrappers.Some(GameEffectEnum.Weakness)
    case _ => Wrappers.Option.None
  }

  /** The arms whose string has 9 characters. */
  function ArmsOfLength9(s: string): Wrappers.Option<GameEffectEnum>
  {
    match s
    case "POLYMORPH" => Wrappers.Some(GameEffectEnum.Polymorph)
    case "BLINDNESS" => Wrappers.Some(GameEffectEnum.Blindness)
    case "TELEPATHY" => Wrappers.Some(GameEffectEnum.Telepathy)
    case "CONFUSION" => Wrappers.Some(GameEffectEnum.Confusion)
    case "KNOCKBACK" => Wrappers.Some(GameEffectEnum.Knockback)
    case _ => Wrappers.Option.None
  }

  /** The arms whose string has 10 characters. */
  function ArmsOfLength10(s: string): Wrappers.Option<GameEffectEnum>
  {
    match s
    case "LEVITATION" => Wrappers.Some(GameEffectEnum.Levitation)
    case _ => Wrappers.Option.None
  }

  /** The arms whose string has 11 characters. */
  function ArmsOfLength11(s: string): Wrappers.Option<GameEffectEnum>
  {
    match s
    case "RADIOACTIVE" => Wrappers.Some(GameEffectEnum.Radioactive)
    case "GLOBAL_GORE" => Wrappers.Some(GameEffectEnum.GlobalGore)
    case "EXTRA_MONEY" => Wrappers.Some(GameEffectEnum.ExtraMoney)
    case "HOVER_BOOST" => Wrappers.Some(GameEffectEnum.HoverBoost)
    case _ => Wrappers.Option.None
  }

  /** The arms whose string has 12 characters. */
  function ArmsOfLength12(s: string): Wrappers.Option<GameEffectEnum>
  {
    match s
    case "REGENERATION" => Wrappers.Some(GameEffectEnum.Regeneration)
    case "INTERNAL_ICE" => Wrappers.Some(GameEffectEnum.InternalIce)
    case "SAVING_GRACE" => Wrappers.Some(GameEffectEnum.SavingGrace)
    case "TELEPORTITIS" => Wrappers.Some(GameEffectEnum.Teleportitis)
    case "IRON_STOMACH" => Wrappers.Some(GameEffectEnum.IronStomach)
    case "INVISIBILITY" => Wrappers.Some(GameEffectEnum.Invisibility)
    case _ => Wrappers.Option.None
  }

  /** The arms whose string has 13 characters. */
  function ArmsOfLength13(s: string): Wrappers.Option<GameEffectEnum>
  {
    match s
    case "ELECTROCUTION" => Wrappers.Some(GameEffectEnum.Electrocution)
    case "TELEPORTATION" => Wrappers.Some(GameEffectEnum.Teleportation)
    case "MELEE_COUNTER" => Wrappers.Some(GameEffectEnum.MeleeCounter)
    case "INTERNAL_FIRE" => Wrappers.Some(GameEffectEnum.InternalFire)
    case "HEALING_BLOOD" => Wrappers.Some(GameEffectEnum.HealingBlood)
    case "RAINBOW_FARTS" => Wrappers.Some(GameEffectEnum.RainbowFarts)
    case _ => Wrappers.Option.None
  }

  /** The arms whose string has 14 characters. */
  function ArmsOfLength14(s: string): Wrappers.Option<GameEffectEnum>
  {
    match s
    case "WORM_ATTRACTOR" => Wrappers.Some(GameEffectEnum.WormAttractor)
    case "WORM_DETRACTOR" => Wrappers.Some(GameEffectEnum.WormDetractor)
    case "FOOD_POISONING" => Wrappers.Some(GameEffectEnum.FoodPoisoning)
    case "PROTECTION_ALL" => Wrappers.Some(GameEffectEnum.ProtectionAll)
    case _ => Wrappers.Option.None
  }

  /** The arms whose string has 15 characters. */
  function ArmsOfLength15(s: string): Wrappers.Option<GameEffectEnum>
  {
    match s
    case "MOVEMENT_SLOWER" => Wrappers.Some(GameEffectEnum.MovementSlower)
    case "FRIEND_FIREMAGE" => Wrappers.Some(GameEffectEnum.FriendFiremage)
    case "MOVEMENT_FASTER" => Wrappers.Some(GameEffectEnum.MovementFaster)
    case "PROTECTION_FIRE" => Wrappers.Some(GameEffectEnum.ProtectionFire)
    case "NO_DAMAGE_FLASH" => Wrappers.Some(GameEffectEnum.NoDamageFlash)
    case "NO_WAND_EDITING" => Wrappers.Some(GameEffectEnum.NoWandEditing)
    case "FROZEN_SPEED_UP" => Wrappers.Some(GameEffectEnum.FrozenSpeedUp)
    case _ => Wrappers.Option.None
  }

  /** The arms whose string has 16 characters. */
  function ArmsOfLength16(s: string): Wrappers.Option<GameEffectEnum>
  {
    match s
    case "POLYMORPH_RANDOM" => Wrappers.Some(GameEffectEnum.PolymorphRandom)
    case "PROTECTION_MELEE" => Wrappers.Some(GameEffectEnum.ProtectionMelee)
    case "STAINLESS_ARMOUR" => Wrappers.Some(GameEffectEnum.StainlessArmour)
    case "EXPLODING_CORPSE" => Wrappers.Some(GameEffectEnum.ExplodingCorpse)
    case "PROTECTION_EDGES" => Wrappers.Some(GameEffectEnum.ProtectionEdges)
    case _ => Wrappers.Option.None
  }

  /** The arms whose string has 17 characters. */
  function ArmsOfLength17(s: string): Wrappers.Option<GameEffectEnum>
  {
    match s
    case "BREATH_UNDERWATER" => Wrappers.Some(GameEffectEnum.BreathUnderwater)
    case "DAMAGE_MULTIPLIER" => Wrappers.Some(GameEffectEnum.DamageMultiplier)
    case "PROJECTILE_HOMING" => Wrappers.Some(GameEffectEnum.ProjectileHoming)
    case "NO_SLIME_SLOWDOWN" => Wrappers.Some(GameEffectEnum.NoSlimeSlowdown)
    case "FASTER_LEVITATION" => Wrappers.Some(GameEffectEnum.FasterLevitation)
    case "REMOVE_FOG_OF_WAR" => Wrappers.Some(GameEffectEnum.RemoveFogOfWar)
    case "MANA_REGENERATION" => Wrappers.Some(GameEffectEnum.ManaRegeneration)
    case "PROTECTION_FREEZE" => Wrappers.Some(GameEffectEnum.ProtectionFreeze)
    case _ => Wrappers.Option.None
  }

  /** The arms whose string has 18 characters. */
  function ArmsOfLength18(s: string): Wrappers.Option<GameEffectEnum>
  {
    match s
    case "CRITICAL_HIT_BOOST" => Wrappers.Some(GameEffectEnum.CriticalHitBoost)
    case "FRIEND_THUNDERMAGE" => Wrappers.Some(GameEffectEnum.FriendThundermage)
    case "KNOCKBACK_IMMUNITY" => Wrappers.Some(GameEffectEnum.KnockbackImmunity)
    case "MOVEMENT_SLOWER2_X" => Wrappers.Some(GameEffectEnum.MovementSlower2X)
    case "STAINS_DROP_FASTER" => Wrappers.Some(GameEffectEnum.StainsDropFaster)
    case "MOVEMENT_FASTER2_X" => Wrappers.Some(GameEffectEnum.MovementFaster2X)
    case "POLYMORPH_UNSTABLE" => Wrappers.Some(GameEffectEnum.PolymorphUnstable)
    case _ => Wrappers.Option.None
  }

  /** The arms whose string has 19 characters. */
  function ArmsOfLength19(s: string): Wrappers.Option<GameEffectEnum>
  {
    match s
    case "LOW_HP_DAMAGE_BOOST" => Wrappers.Some(GameEffectEnum.LowHpDamageBoost)
    case "ALLERGY_RADIOACTIVE" => Wrappers.Some(GameEffectEnum.AllergyRadioactive)
    case "POLYMORPH_CESSATION" => Wrappers.Some(GameEffectEnum.PolymorphCessation)
    case _ => Wrappers.Option.None
  }

  /** The arms whose string has 20 characters. */
  function ArmsOfLength20(s: string): Wrappers.Option<GameEffectEnum>
  {
    match s
    case "PROTECTION_EXPLOSION" => Wrappers.Some(GameEffectEnum.ProtectionExplosion)
    case "PROTECTION_POLYMORPH" => Wrappers.Some(GameEffectEnum.ProtectionPolymorph)
    case _ => Wrappers.Option.None
  }

  /** The arms whose string has 21 characters. */
  function ArmsOfLength21(s: string): Wrappers.Option<GameEffectEnum>
  {
    match s
    case "EDIT_WANDS_EVERYWHERE" => Wrappers.Some(GameEffectEnum.EditWandsEverywhere)
    case "PROTECTION_PROJECTILE" => Wrappers.Some(GameEffectEnum.ProtectionProjectile)
    case _ => Wrappers.Option.None
  }

  /** The arms whose string has 22 characters. */
  function ArmsOfLength22(s: string): Wrappers.Option<GameEffectEnum>
  {
    match s
    case "PROTECTION_ELECTRICITY" => Wrappers.Some(GameEffectEnum.ProtectionElectricity)
    case "EXPLODING_CORPSE_SHOTS" => Wrappers.Some(GameEffectEnum.ExplodingCorpseShots)
    case "EXTRA_MONEY_TRICK_KILL" => Wrappers.Some(GameEffectEnum.ExtraMoneyTrickKill)
    case "STUN_PROTECTION_FREEZE" => Wrappers.Some(GameEffectEnum.StunProtectionFreeze)
    case "UNSTABLE_TELEPORTATION" => Wrappers.Some(GameEffectEnum.UnstableTeleportation)
    case _ => Wrappers.Option.None
  }

  /** The arms whose string has 24 characters. */
  function ArmsOfLength24(s: string): Wrappers.Option<GameEffectEnum>
  {
    match s
    case "PROTECTION_RADIOACTIVITY" => Wrappers.Some(GameEffectEnum.ProtectionRadioactivity)
    case _ => Wrappers.Option.None
  }

  /** The arms whose string has 25 characters. */
  function ArmsOfLength25(s: string): Wrappers.Option<GameEffectEnum>
  {
    match s
    case "PROTECTION_FOOD_POISONING" => Wrappers.Some(GameEffectEnum.ProtectionFoodPoisoning)
    case _ => Wrappers.Option.None
  }

  /** The arms whose string has 26 characters. */
  function ArmsOfLength26(s: string): Wrappers.Option<GameEffectEnum>
  {
    match s
    case "PROTECTION_DURING_TELEPORT" => Wrappers.Some(GameEffectEnum.ProtectionDuringTeleport)
    case _ => Wrappers.Option.None
  }

  /** The arms whose string has 27 characters. */
  function ArmsOfLength27(s: string): Wrappers.Option<GameEffectEnum>
  {
    match s
    case "STUN_PROTECTION_ELECTRICITY" => Wrappers.Some(GameEffectEnum.StunProtectionElectricity)
    case _ => Wrappers.Option.None
  }

  /** The arms whose string has 28 characters. */
  function ArmsOfLength28(s: string): Wrappers.Option<GameEffectEnum>
  {
    match s
    case "ABILITY_ACTIONS_MATERIALIZED" => Wrappers.Some(GameEffectEnum.AbilityActionsMaterialized)
    case _ => Wrappers.Option.None
  }

  // One row of ToStr at a time: each of these looks up a single variant.

  lemma ToStrNone()
    ensures ToStr(None) == "NONE"
  {
  }

  lemma ToStrElectrocution()
    ensures ToStr(Electrocution) == "ELECTROCUTION"
  {
  }

  lemma ToStrFrozen()
    ensures ToStr(Frozen) == "FROZEN"
  {
  }

  lemma ToStrOnFire()
    ensures ToStr(OnFire) == "ON_FIRE"
  {
  }

  lemma ToStrPoison()
    ensures ToStr(Poison) == "POISON"
  {
  }

  lemma ToStrBerserk()
    ensures ToStr(Berserk) == "BERSERK"
  {
  }

  lemma ToStrCharm()
    ensures ToStr(Charm) == "CHARM"
  {
  }

  lemma ToStrPolymorph()
    ensures ToStr(Polymorph) == "POLYMORPH"
  {
  }

  lemma ToStrPolymorphRandom()
    ensures ToStr(PolymorphRandom) == "POLYMORPH_RANDOM"
  {
  }

  lemma ToStrBlindness()
    ensures ToStr(Blindness) == "BLINDNESS"
  {
  }

  lemma ToStrTelepathy()
    ensures ToStr(Telepathy) == "TELEPATHY"
  {
  }

  lemma ToStrTeleportation()
    ensures ToStr(Teleportation) == "TELEPORTATION"
  {
  }

  lemma ToStrRegeneration()
    ensures ToStr(Regeneration) == "REGENERATION"
  {
  }

  lemma ToStrLevitation()
    ensures ToStr(Levitation) == "LEVITATION"
  {
  }

  lemma ToStrMovementSlower()
    ensures ToStr(MovementSlower) == "MOVEMENT_SLOWER"
  {
  }

  lemma ToStrFarts()
    ensures ToStr(Farts) == "FARTS"
  {
  }

  lemma ToStrDrunk()
    ensures ToStr(Drunk) == "DRUNK"
  {
  }

  lemma ToStrBreathUnderwater()
    ensures ToStr(BreathUnderwater) == "BREATH_UNDERWATER"
  {
  }

  lemma ToStrRadioactive()
    ensures ToStr(Radioactive) == "RADIOACTIVE"
  {
  }

  lemma ToStrWet()
    ensures ToStr(Wet) == "WET"
  {
  }

  lemma ToStrOiled()
    ensures ToStr(Oiled) == "OILED"
  {
  }

  lemma ToStrBloody()
    ensures ToStr(Bloody) == "BLOODY"
  {
  }

  lemma ToStrSlimy()
    ensures ToStr(Slimy) == "SLIMY"
  {
  }

  lemma ToStrCriticalHitBoost()
    ensures ToStr(CriticalHitBoost) == "CRITICAL_HIT_BOOST"
  {
  }

  lemma ToStrConfusion()
    ensures ToStr(Confusion) == "CONFUSION"
  {
  }

  lemma ToStrMeleeCounter()
    ensures ToStr(MeleeCounter) == "MELEE_COUNTER"
  {
  }

  lemma ToStrWormAttractor()
    ensures ToStr(WormAttractor) == "WORM_ATTRACTOR"
  {
  }

  lemma ToStrWormDetractor()
    ensures ToStr(WormDetractor) == "WORM_DETRACTOR"
  {
  }

  lemma ToStrFoodPoisoning()
    ensures ToStr(FoodPoisoning) == "FOOD_POISONING"
  {
  }

  lemma ToStrFriendThundermage()
    ensures ToStr(FriendThundermage) == "FRIEND_THUNDERMAGE"
  {
  }

  lemma ToStrFriendFiremage()
    ensures ToStr(FriendFiremage) == "FRIEND_FIREMAGE"
  {
  }

  lemma ToStrInternalFire()
    ensures ToStr(InternalFire) == "INTERNAL_FIRE"
  {
  }

  lemma ToStrInternalIce()
    ensures ToStr(InternalIce) == "INTERNAL_ICE"
  {
  }

  lemma ToStrJarate()
    ensures ToStr(Jarate) == "JARATE"
  {
  }

  lemma ToStrKnockback()
    ensures ToStr(Knockback) == "KNOCKBACK"
  {
  }

  lemma ToStrKnockbackImmunity()
    ensures ToStr(KnockbackImmunity) == "KNOCKBACK_IMMUNITY"
  {
  }

  lemma ToStrMovementSlower2X()
    ensures ToStr(MovementSlower2X) == "MOVEMENT_SLOWER2_X"
  {
  }

  lemma ToStrMovementFaster()
    ensures ToStr(MovementFaster) == "MOVEMENT_FASTER"
  {
  }

  lemma ToStrStainsDropFaster()
    ensures ToStr(StainsDropFaster) == "STAINS_DROP_FASTER"
  {
  }

  lemma ToStrSavingGrace()
    ensures ToStr(SavingGrace) == "SAVING_GRACE"
  {
  }

  lemma ToStrDamageMultiplier()
    ensures ToStr(DamageMultiplier) == "DAMAGE_MULTIPLIER"
  {
  }

  lemma ToStrHealingBlood()
    ensures ToStr(HealingBlood) == "HEALING_BLOOD"
  {
  }

  lemma ToStrRespawn()
    ensures ToStr(Respawn) == "RESPAWN"
  {
  }

  lemma ToStrProtectionFire()
    ensures ToStr(ProtectionFire) == "PROTECTION_FIRE"
  {
  }

  lemma ToStrProtectionRadioactivity()
    ensures ToStr(ProtectionRadioactivity) == "PROTECTION_RADIOACTIVITY"
  {
  }

  lemma ToStrProtectionExplosion()
    ensures ToStr(ProtectionExplosion) == "PROTECTION_EXPLOSION"
  {
  }

  lemma ToStrProtectionMelee()
    ensures ToStr(ProtectionMelee) == "PROTECTION_MELEE"
  {
  }

  lemma ToStrProtectionElectricity()
    ensures ToStr(ProtectionElectricity) == "PROTECTION_ELECTRICITY"
  {
  }

  lemma ToStrTeleportitis()
    ensures ToStr(Teleportitis) == "TELEPORTITIS"
  {
  }

  lemma ToStrStainlessArmour()
    ensures ToStr(StainlessArmour) == "STAINLESS_ARMOUR"
  {
  }

  lemma ToStrGlobalGore()
    ensures ToStr(GlobalGore) == "GLOBAL_GORE"
  {
  }

  lemma ToStrEditWandsEverywhere()
    ensures ToStr(EditWandsEverywhere) == "EDIT_WANDS_EVERYWHERE"
  {
  }

  lemma ToStrExplodingCorpseShots()
    ensures ToStr(ExplodingCorpseShots) == "EXPLODING_CORPSE_SHOTS"
  {
  }

  lemma ToStrExplodingCorpse()
    ensures ToStr(ExplodingCorpse) == "EXPLODING_CORPSE"
  {
  }

  lemma ToStrExtraMoney()
    ensures ToStr(ExtraMoney) == "EXTRA_MONEY"
  {
  }

  lemma ToStrExtraMoneyTrickKill()
    ensures ToStr(ExtraMoneyTrickKill) == "EXTRA_MONEY_TRICK_KILL"
  {
  }

  lemma ToStrHoverBoost()
    ensures ToStr(HoverBoost) == "HOVER_BOOST"
  {
  }

  lemma ToStrProjectileHoming()
    ensures ToStr(ProjectileHoming) == "PROJECTILE_HOMING"
  {
  }

  lemma ToStrAbilityActionsMaterialized()
    ensures ToStr(AbilityActionsMaterialized) == "ABILITY_ACTIONS_MATERIALIZED"
  {
  }

  lemma ToStrNoDamageFlash()
    ensures ToStr(NoDamageFlash) == "NO_DAMAGE_FLASH"
  {
  }

  lemma ToStrNoSlimeSlowdown()
    ensures ToStr(NoSlimeSlowdown) == "NO_SLIME_SLOWDOWN"
  {
  }

  lemma ToStrMovementFaster2X()
    ensures ToStr(MovementFaster2X) == "MOVEMENT_FASTER2_X"
  {
  }

  lemma ToStrNoWandEditing()
    ensures ToStr(NoWandEditing) == "NO_WAND_EDITING"
  {
  }

  lemma ToStrLowHpDamageBoost()
    ensures ToStr(LowHpDamageBoost) == "LOW_HP_DAMAGE_BOOST"
  {
  }

  lemma ToStrFasterLevitation()
    ensures ToStr(FasterLevitation) == "FASTER_LEVITATION"
  {
  }

  lemma ToStrStunProtectionElectricity()
    ensures ToStr(StunProtectionElectricity) == "STUN_PROTECTION_ELECTRICITY"
  {
  }

  lemma ToStrStunProtectionFreeze()
    ensures ToStr(StunProtectionFreeze) == "STUN_PROTECTION_FREEZE"
  {
  }

  lemma ToStrIronStomach()
    ensures ToStr(IronStomach) == "IRON_STOMACH"
  {
  }

  lemma ToStrProtectionAll()
    ensures ToStr(ProtectionAll) == "PROTECTION_ALL"
  {
  }

  lemma ToStrInvisibility()
    ensures ToStr(Invisibility) == "INVISIBILITY"
  {
  }

  lemma ToStrRemoveFogOfWar()
    ensures ToStr(RemoveFogOfWar) == "REMOVE_FOG_OF_WAR"
  {
  }

  lemma ToStrManaRegeneration()
    ensures ToStr(ManaRegeneration) == "MANA_REGENERATION"
  {
  }

  lemma ToStrProtectionDuringTeleport()
    ensures ToStr(ProtectionDuringTeleport) == "PROTECTION_DURING_TELEPORT"
  {
  }

  lemma ToStrProtectionPolymorph()
    ensures ToStr(ProtectionPolymorph) == "PROTECTION_POLYMORPH"
  {
  }

  lemma ToStrProtectionFreeze()
    ensures ToStr(ProtectionFreeze) == "PROTECTION_FREEZE"
  {
  }

  lemma ToStrFrozenSpeedUp()
    ensures ToStr(FrozenSpeedUp) == "FROZEN_SPEED_UP"
  {
  }

  lemma ToStrUnstableTeleportation()
    ensures ToStr(UnstableTeleportation) == "UNSTABLE_TELEPORTATION"
  {
  }

  lemma ToStrPolymorphUnstable()
    ensures ToStr(PolymorphUnstable) == "POLYMORPH_UNSTABLE"
  {
  }

  lemma ToStrCustom()
    ensures ToStr(Custom) == "CUSTOM"
  {
  }

  lemma ToStrAllergyRadioactive()
    ensures ToStr(AllergyRadioactive) == "ALLERGY_RADIOACTIVE"
  {
  }

  lemma ToStrRainbowFarts()
    ensures ToStr(RainbowFarts) == "RAINBOW_FARTS"
  {
  }

  lemma ToStrWeakness()
    ensures ToStr(Weakness) == "WEAKNESS"
  {
  }

  lemma ToStrProtectionFoodPoisoning()
    ensures ToStr(ProtectionFoodPoisoning) == "PROTECTION_FOOD_POISONING"
  {
  }

  lemma ToStrNoHeal()
    ensures ToStr(NoHeal) == "NO_HEAL"
  {
  }

  lemma ToStrProtectionEdges()
    ensures ToStr(ProtectionEdges) == "PROTECTION_EDGES"
  {
  }

  lemma ToStrProtectionProjectile()
    ensures ToStr(ProtectionProjectile) == "PROTECTION_PROJECTILE"
  {
  }

  lemma ToStrPolymorphCessation()
    ensures ToStr(PolymorphCessation) == "POLYMORPH_CESSATION"
  {
  }

  lemma ToStrLast()
    ensures ToStr(Last) == "LAST"
  {
  }

  // Each group of arms against ToStr: every arm yields the variant whose
  // static string it matches, and every variant of that length reaches its arm.

  lemma ArmsOfLength3Sound(s: string)
    ensures ArmsOfLength3(s).Some? ==> ToStr(ArmsOfLength3(s).value) == s
  {
    ToStrWet();
  }

  lemma ArmsOfLength3Cover(e: GameEffectEnum)
    requires e.Wet?
    ensures MatchArms(ToStr(e)) == Wrappers.Some(e)
  {
    ToStrWet();
  }

  lemma ArmsOfLength4Sound(s: string)
    ensures ArmsOfLength4(s).Some? ==> ToStr(ArmsOfLength4(s).value) == s
  {
    ToStrNone();
    ToStrLast();
  }

  lemma ArmsOfLength4Cover(e: GameEffectEnum)
    requires e.None? || e.Last?
    ensures MatchArms(ToStr(e)) == Wrappers.Some(e)
  {
    ToStrNone();
    ToStrLast();
  }

  lemma ArmsOfLength5Sound(s: string)
    ensures ArmsOfLength5(s).Some? ==> ToStr(ArmsOfLength5(s).value) == s
  {
    ToStrCharm();
    ToStrFarts();
    ToStrDrunk();
    ToStrOiled();
    ToStrSlimy();
  }

  lemma ArmsOfLength5Cover(e: GameEffectEnum)
    requires e.Charm? || e.Farts? || e.Drunk? || e.Oiled? || e.Slimy?
    ensures MatchArms(ToStr(e)) == Wrappers.Some(e)
  {
    ToStrCharm();
    ToStrFarts();
    ToStrDrunk();
    ToStrOiled();
    ToStrSlimy();
  }

  lemma ArmsOfLength6Sound(s: string)
    ensures ArmsOfLength6(s).Some? ==> ToStr(ArmsOfLength6(s).value) == s
  {
    ToStrFrozen();
    ToStrPoison();
    ToStrBloody();
    ToStrJarate();
    ToStrCustom();
  }

  lemma ArmsOfLength6Cover(e: GameEffectEnum)
    requires e.Frozen? || e.Poison? || e.Bloody? || e.Jarate? || e.Custom?
    ensures MatchArms(ToStr(e)) == Wrappers.Some(e)
  {
    ToStrFrozen();
    ToStrPoison();
    ToStrBloody();
    ToStrJarate();
    ToStrCustom();
  }

  lemma ArmsOfLength7Sound(s: string)
    ensures ArmsOfLength7(s).Some? ==> ToStr(ArmsOfLength7(s).value) == s
  {
    ToStrOnFire();
    ToStrBerserk();
    ToStrRespawn();
    ToStrNoHeal();
  }

  lemma ArmsOfLength7Cover(e: GameEffectEnum)
    requires e.OnFire? || e.Berserk? || e.Respawn? || e.NoHeal?
    ensures MatchArms(ToStr(e)) == Wrappers.Some(e)
  {
    ToStrOnFire();
    ToStrBerserk();
    ToStrRespawn();
    ToStrNoHeal();
  }

  lemma ArmsOfLength8Sound(s: string)
    ensures ArmsOfLength8(s).Some? ==> ToStr(ArmsOfLength8(s).value) == s
  {
    ToStrWeakness();
  }

  lemma ArmsOfLength8Cover(e: GameEffectEnum)
    requires e.Weakness?
    ensures MatchArms(ToStr(e)) == Wrappers.Some(e)
  {
    ToStrWeakness();
  }

  lemma ArmsOfLength9Sound(s: string)
    ensures ArmsOfLength9(s).Some? ==> ToStr(ArmsOfLength9(s).value) == s
  {
    ToStrPolymorph();
    ToStrBlindness();
    ToStrTelepathy();
    ToStrConfusion();
    ToStrKnockback();
  }

  lemma ArmsOfLength9Cover(e: GameEffectEnum)
    requires e.Polymorph? || e.Blindness? || e.Telepathy? || e.Confusion? || e.Knockback?
    ensures MatchArms(ToStr(e)) == Wrappers.Some(e)
  {
    ToStrPolymorph();
    ToStrBlindness();
    ToStrTelepathy();
    ToStrConfusion();
    ToStrKnockback();
  }

  lemma ArmsOfLength10Sound(s: string)
    ensures ArmsOfLength10(s).Some? ==> ToStr(ArmsOfLength10(s).value) == s
  {
    ToStrLevitation();
  }

  lemma ArmsOfLength10Cover(e: GameEffectEnum)
    requires e.Levitation?
    ensures MatchArms(ToStr(e)) == Wrappers.Some(e)
  {
    ToStrLevitation();
  }

  lemma ArmsOfLength11Sound(s: string)
    ensures ArmsOfLength11(s).Some? ==> ToStr(ArmsOfLength11(s).value) == s
  {
    ToStrRadioactive();
    ToStrGlobalGore();
    ToStrExtraMoney();
    ToStrHoverBoost();
  }

  lemma ArmsOfLength11Cover(e: GameEffectEnum)
    requires e.Radioactive? || e.GlobalGore? || e.ExtraMoney? || e.HoverBoost?
    ensures MatchArms(ToStr(e)) == Wrappers.Some(e)
  {
    ToStrRadioactive();
    ToStrGlobalGore();
    ToStrExtraMoney();
    ToStrHoverBoost();
  }

  lemma ArmsOfLength12Sound(s: string)
    ensures ArmsOfLength12(s).Some? ==> ToStr(ArmsOfLength12(s).value) == s
  {
    ToStrRegeneration();
    ToStrInternalIce();
    ToStrSavingGrace();
    ToStrTeleportitis();
    ToStrIronStomach();
    ToStrInvisibility();
  }

  lemma ArmsOfLength12Cover(e: GameEffectEnum)
    requires e.Regeneration? || e.InternalIce? || e.SavingGrace? || e.Teleportitis? || e.IronStomach? || e.Invisibility?
    ensures MatchArms(ToStr(e)) == Wrappers.Some(e)
  {
    ToStrRegeneration();
    ToStrInternalIce();
    ToStrSavingGrace();
    ToStrTeleportitis();
    ToStrIronStomach();
    ToStrInvisibility();
  }

  lemma ArmsOfLength13Sound(s: string)
    ensures ArmsOfLength13(s).Some? ==> ToStr(ArmsOfLength13(s).value) == s
  {
    ToStrElectrocution();
    ToStrTeleportation();
    ToStrMeleeCounter();
    ToStrInternalFire();
    ToStrHealingBlood();
    ToStrRainbowFarts();
  }

  lemma ArmsOfLength13Cover(e: GameEffectEnum)
    requires e.Electrocution? || e.Teleportation? || e.MeleeCounter? || e.InternalFire? || e.HealingBlood? || e.RainbowFarts?
    ensures MatchArms(ToStr(e)) == Wrappers.Some(e)
  {
    ToStrElectrocution();
    ToStrTeleportation();
    ToStrMeleeCounter();
    ToStrInternalFire();
    ToStrHealingBlood();
    ToStrRainbowFarts();
  }

  lemma ArmsOfLength14Sound(s: string)
    ensures ArmsOfLength14(s).Some? ==> ToStr(ArmsOfLength14(s).value) == s
  {
    ToStrWormAttractor();
    ToStrWormDetractor();
    ToStrFoodPoisoning();
    ToStrProtectionAll();
  }

  lemma ArmsOfLength14Cover(e: GameEffectEnum)
    requires e.WormAttractor? || e.WormDetractor? || e.FoodPoisoning? || e.ProtectionAll?
    ensures MatchArms(ToStr(e)) == Wrappers.Some(e)
  {
    ToStrWormAttractor();
    ToStrWormDetractor();
    ToStrFoodPoisoning();
    ToStrProtectionAll();
  }

  lemma ArmsOfLength15Sound(s: string)
    ensures ArmsOfLength15(s).Some? ==> ToStr(ArmsOfLength15(s).value) == s
  {
    ToStrMovementSlower();
    ToStrFriendFiremage();
    ToStrMovementFaster();
    ToStrProtectionFire();
    ToStrNoDamageFlash();
    ToStrNoWandEditing();
    ToStrFrozenSpeedUp();
  }

  lemma ArmsOfLength15Cover(e: GameEffectEnum)
    requires e.MovementSlower? || e.FriendFiremage? || e.MovementFaster? || e.ProtectionFire? || e.NoDamageFlash? || e.NoWandEditing? || e.FrozenSpeedUp?
    ensures MatchArms(ToStr(e)) == Wrappers.Some(e)
  {
    ToStrMovementSlower();
    ToStrFriendFiremage();
    ToStrMovementFaster();
    ToStrProtectionFire();
    ToStrNoDamageFlash();
    ToStrNoWandEditing();
    ToStrFrozenSpeedUp();
  }

  lemma ArmsOfLength16Sound(s: string)
    ensures ArmsOfLength16(s).Some? ==> ToStr(ArmsOfLength16(s).value) == s
  {
    ToStrPolymorphRandom();
    ToStrProtectionMelee();
    ToStrStainlessArmour();
    ToStrExplodingCorpse();
    ToStrProtectionEdges();
  }

  lemma ArmsOfLength16Cover(e: GameEffectEnum)
    requires e.PolymorphRandom? || e.ProtectionMelee? || e.StainlessArmour? || e.ExplodingCorpse? || e.ProtectionEdges?
    ensures MatchArms(ToStr(e)) == Wrappers.Some(e)
  {
    ToStrPolymorphRandom();
    ToStrProtectionMelee();
    ToStrStainlessArmour();
    ToStrExplodingCorpse();
    ToStrProtectionEdges();
  }

  lemma ArmsOfLength17Sound(s: string)
    ensures ArmsOfLength17(s).Some? ==> ToStr(ArmsOfLength17(s).value) == s
  {
    ToStrBreathUnderwater();
    ToStrDamageMultiplier();
    ToStrProjectileHoming();
    ToStrNoSlimeSlowdown();
    ToStrFasterLevitation();
    ToStrRemoveFogOfWar();
    ToStrManaRegeneration();
    ToStrProtectionFreeze();
  }

  lemma ArmsOfLength17Cover(e: GameEffectEnum)
    requires e.BreathUnderwater? || e.DamageMultiplier? || e.ProjectileHoming? || e.NoSlimeSlowdown? || e.FasterLevitation? || e.RemoveFogOfWar? || e.ManaRegeneration? || e.ProtectionFreeze?
    ensures MatchArms(ToStr(e)) == Wrappers.Some(e)
  {
    ToStrBreathUnderwater();
    ToStrDamageMultiplier();
    ToStrProjectileHoming();
    ToStrNoSlimeSlowdown();
    ToStrFasterLevitation();
    ToStrRemoveFogOfWar();
    ToStrManaRegeneration();
    ToStrProtectionFreeze();
  }

  lemma ArmsOfLength18Sound(s: string)
    ensures ArmsOfLength18(s).Some? ==> ToStr(ArmsOfLength18(s).value) == s
  {
    ToStrCriticalHitBoost();
    ToStrFriendThundermage();
    ToStrKnockbackImmunity();
    ToStrMovementSlower2X();
    ToStrStainsDropFaster();
    ToStrMovementFaster2X();
    ToStrPolymorphUnstable();
  }

  lemma ArmsOfLength18Cover(e: GameEffectEnum)
    requires e.CriticalHitBoost? || e.FriendThundermage? || e.KnockbackImmunity? || e.MovementSlower2X? || e.StainsDropFaster? || e.MovementFaster2X? || e.PolymorphUnstable?
    ensures MatchArms(ToStr(e)) == Wrappers.Some(e)
  {
    ToStrCriticalHitBoost();
    ToStrFriendThundermage();
    ToStrKnockbackImmunity();
    ToStrMovementSlower2X();
    ToStrStainsDropFaster();
    ToStrMovementFaster2X();
    ToStrPolymorphUnstable();
  }

  lemma ArmsOfLength19Sound(s: string)
    ensures ArmsOfLength19(s).Some? ==> ToStr(ArmsOfLength19(s).value) == s
  {
    ToStrLowHpDamageBoost();
    ToStrAllergyRadioactive();
    ToStrPolymorphCessation();
  }

  lemma ArmsOfLength19Cover(e: GameEffectEnum)
    requires e.LowHpDamageBoost? || e.AllergyRadioactive? || e.PolymorphCessation?
    ensures MatchArms(ToStr(e)) == Wrappers.Some(e)
  {
    ToStrLowHpDamageBoost();
    ToStrAllergyRadioactive();
    ToStrPolymorphCessation();
  }

  lemma ArmsOfLength20Sound(s: string)
    ensures ArmsOfLength20(s).Some? ==> ToStr(ArmsOfLength20(s).value) == s
  {
    ToStrProtectionExplosion();
    ToStrProtectionPolymorph();
  }

  lemma ArmsOfLength20Cover(e: GameEffectEnum)
    requires e.ProtectionExplosion? || e.ProtectionPolymorph?
    ensures MatchArms(ToStr(e)) == Wrappers.Some(e)
  {
    ToStrProtectionExplosion();
    ToStrProtectionPolymorph();
  }

  lemma ArmsOfLength21Sound(s: string)
    ensures ArmsOfLength21(s).Some? ==> ToStr(ArmsOfLength21(s).value) == s
  {
    ToStrEditWandsEverywhere();
    ToStrProtectionProjectile();
  }

  lemma ArmsOfLength21Cover(e: GameEffectEnum)
    requires e.EditWandsEverywhere? || e.ProtectionProjectile?
    ensures MatchArms(ToStr(e)) == Wrappers.Some(e)
  {
    ToStrEditWandsEverywhere();
    ToStrProtectionProjectile();
  }

  lemma ArmsOfLength22Sound(s: string)
    ensures ArmsOfLength22(s).Some? ==> ToStr(ArmsOfLength22(s).value) == s
  {
    ToStrProtectionElectricity();
    ToStrExplodingCorpseShots();
    ToStrExtraMoneyTrickKill();
    ToStrStunProtectionFreeze();
    ToStrUnstableTeleportation();
  }

  lemma ArmsOfLength22Cover(e: GameEffectEnum)
    requires e.ProtectionElectricity? || e.ExplodingCorpseShots? || e.ExtraMoneyTrickKill? || e.StunProtectionFreeze? || e.UnstableTeleportation?
    ensures MatchArms(ToStr(e)) == Wrappers.Some(e)
  {
    ToStrProtectionElectricity();
    ToStrExplodingCorpseShots();
    ToStrExtraMoneyTrickKill();
    ToStrStunProtectionFreeze();
    ToStrUnstableTeleportation();
  }

  lemma ArmsOfLength24Sound(s: string)
    ensures ArmsOfLength24(s).Some? ==> ToStr(ArmsOfLength24(s).value) == s
  {
    ToStrProtectionRadioactivity();
  }

  lemma ArmsOfLength24Cover(e: GameEffectEnum)
    requires e.ProtectionRadioactivity?
    ensures MatchArms(ToStr(e)) == Wrappers.Some(e)
  {
    ToStrProtectionRadioactivity();
  }

  lemma ArmsOfLength25Sound(s: string)
    ensures ArmsOfLength25(s).Some? ==> ToStr(ArmsOfLength25(s).value) == s
  {
    ToStrProtectionFoodPoisoning();
  }

  lemma ArmsOfLength25Cover(e: GameEffectEnum)
    requires e.ProtectionFoodPoisoning?
    ensures MatchArms(ToStr(e)) == Wrappers.Some(e)
  {
    ToStrProtectionFoodPoisoning();
  }

  lemma ArmsOfLength26Sound(s: string)
    ensures ArmsOfLength26(s).Some? ==> ToStr(ArmsOfLength26(s).value) == s
  {
    ToStrProtectionDuringTeleport();
  }

  lemma ArmsOfLength26Cover(e: GameEffectEnum)
    requires e.ProtectionDuringTeleport?
    ensures MatchArms(ToStr(e)) == Wrappers.Some(e)
  {
    ToStrProtectionDuringTeleport();
  }

  lemma ArmsOfLength27Sound(s: string)
    ensures ArmsOfLength27(s).Some? ==> ToStr(ArmsOfLength27(s).value) == s
  {
    ToStrStunProtectionElectricity();
  }

  lemma ArmsOfLength27Cover(e: GameEffectEnum)
    requires e.StunProtectionElectricity?
    ensures MatchArms(ToStr(e)) == Wrappers.Some(e)
  {
    ToStrStunProtectionElectricity();
  }

  lemma ArmsOfLength28Sound(s: string)
    ensures ArmsOfLength28(s).Some? ==> ToStr(ArmsOfLength28(s).value) == s
  {
    ToStrAbilityActionsMaterialized();
  }

  lemma ArmsOfLength28Cover(e: GameEffectEnum)
    requires e.AbilityActionsMaterialized?
    ensures MatchArms(ToStr(e)) == Wrappers.Some(e)
  {
    ToStrAbilityActionsMaterialized();
  }

  /** Every arm maps the static string of its variant to that variant. */
  lemma MatchArmsSound(s: string)
    ensures MatchArms(s).Some? ==> ToStr(MatchArms(s).value) == s
  {
    match |s|
    case 3 => ArmsOfLength3Sound(s);
    case 4 => ArmsOfLength4Sound(s);
    case 5 => ArmsOfLength5Sound(s);
    case 6 => ArmsOfLength6Sound(s);
    case 7 => ArmsOfLength7Sound(s);
    case 8 => ArmsOfLength8Sound(s);
    case 9 => ArmsOfLength9Sound(s);
    case 10 => ArmsOfLength10Sound(s);
    case 11 => ArmsOfLength11Sound(s);
    case 12 => ArmsOfLength12Sound(s);
    case 13 => ArmsOfLength13Sound(s);
    case 14 => ArmsOfLength14Sound(s);
    case 15 => ArmsOfLength15Sound(s);
    case 16 => ArmsOfLength16Sound(s);
    case 17 => ArmsOfLength17Sound(s);
    case 18 => ArmsOfLength18Sound(s);
    case 19 => ArmsOfLength19Sound(s);
    case 20 => ArmsOfLength20Sound(s);
    case 21 => ArmsOfLength21Sound(s);
    case 22 => ArmsOfLength22Sound(s);
    case 24 => ArmsOfLength24Sound(s);
    case 25 => ArmsOfLength25Sound(s);
    case 26 => ArmsOfLength26Sound(s);
    case 27 => ArmsOfLength27Sound(s);
    case 28 => ArmsOfLength28Sound(s);
    case _ =>
  }

  /** The static string of every variant reaches that variant's arm. */
  lemma MatchArmsCover(e: GameEffectEnum)
    ensures MatchArms(ToStr(e)) == Wrappers.Some(e)
  {
    match e
    case Wet =>
      ArmsOfLength3Cover(e);
    case None | Last =>
      ArmsOfLength4Cover(e);
    case Charm | Farts | Drunk | Oiled | Slimy =>
      ArmsOfLength5Cover(e);
    case Frozen | Poison | Bloody | Jarate | Custom =>
      ArmsOfLength6Cover(e);
    case OnFire | Berserk | Respawn | NoHeal =>
      ArmsOfLength7Cover(e);
    case Weakness =>
      ArmsOfLength8Cover(e);
    case Polymorph | Blindness | Telepathy | Confusion | Knockback =>
      ArmsOfLength9Cover(e);
    case Levitation =>
      ArmsOfLength10Cover(e);
    case Radioactive | GlobalGore | ExtraMoney | HoverBoost =>
      ArmsOfLength11Cover(e);
    case Regeneration | InternalIce | SavingGrace | Teleportitis | IronStomach | Invisibility =>
      ArmsOfLength12Cover(e);
    case Electrocution | Teleportation | MeleeCounter | InternalFire | HealingBlood | RainbowFarts =>
      ArmsOfLength13Cover(e);
    case WormAttractor | WormDetractor | FoodPoisoning | ProtectionAll =>
      ArmsOfLength14Cover(e);
    case MovementSlower | FriendFiremage | MovementFaster | ProtectionFire | NoDamageFlash | NoWandEditing | FrozenSpeedUp =>
      ArmsOfLength15Cover(e);
    case PolymorphRandom | ProtectionMelee | StainlessArmour | ExplodingCorpse | ProtectionEdges =>
      ArmsOfLength16Cover(e);
    case BreathUnderwater | DamageMultiplier | ProjectileHoming | NoSlimeSlowdown | FasterLevitation | RemoveFogOfWar | ManaRegeneration | ProtectionFreeze =>
      ArmsOfLength17Cover(e);
    case CriticalHitBoost | FriendThundermage | KnockbackImmunity | MovementSlower2X | StainsDropFaster | MovementFaster2X | PolymorphUnstable =>
      ArmsOfLength18Cover(e);
    case LowHpDamageBoost | AllergyRadioactive | PolymorphCessation =>
      ArmsOfLength19Cover(e);
    case ProtectionExplosion | ProtectionPolymorph =>
      ArmsOfLength20Cover(e);
    case EditWandsEverywhere | ProtectionProjectile =>
      ArmsOfLength21Cover(e);
    case ProtectionElectricity | ExplodingCorpseShots | ExtraMoneyTrickKill | StunProtectionFreeze | UnstableTeleportation =>
      ArmsOfLength22Cover(e);
    case ProtectionRadioactivity =>
      ArmsOfLength24Cover(e);
    case ProtectionFoodPoisoning =>
      ArmsOfLength25Cover(e);
    case ProtectionDuringTeleport =>
      ArmsOfLength26Cover(e);
    case StunProtectionElectricity =>
      ArmsOfLength27Cover(e);
    case AbilityActionsMaterialized =>
      ArmsOfLength28Cover(e);
  }

  lemma MatchArmsCoverAll()
    ensures forall e :: MatchArms(ToStr(e)) == Wrappers.Some(e)
  {
    forall e ensures MatchArms(ToStr(e)) == Wrappers.Some(e) {
      MatchArmsCover(e);
    }
  }

  /** Parsing the static string of any variant gives that variant back. */
  lemma ParseToStr(e: GameEffectEnum)
    ensures Parse(ToStr(e)) == Wrappers.Some(e)
  {
    MatchArmsCover(e);
  }

  /** No two variants share a static string. */
  lemma ToStrInjective(a: GameEffectEnum, b: GameEffectEnum)
    ensures ToStr(a) == ToStr(b) <==> a == b
  {
    ParseToStr(a);
    ParseToStr(b);
  }

  lemma ToStrInjectiveAll()
    ensures forall a, b :: ToStr(a) == ToStr(b) ==> a == b
  {
    forall a, b | ToStr(a) == ToStr(b) ensures a == b {
      ToStrInjective(a, b);
    }
  }

  /**
   * A string parses to `v` exactly when it is `v`'s static string, and a
   * string that is no variant's static string does not parse.
   */
  lemma ParseIffImage(s: string, v: GameEffectEnum)
    ensures Parse(s) == Wrappers.Some(v) <==> ToStr(v) == s
    ensures Parse(s).None? <==> (forall u :: ToStr(u) != s)
  {
    if ToStr(v) == s {
      ParseToStr(v);
    }
    if Parse(s).None? {
      forall u ensures ToStr(u) != s {
        ParseToStr(u);
      }
    }
  }
}
