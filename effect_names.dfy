/**
 * The Rust identifiers of the game-effect variants (shared/src/lib.rs:61-148)
 * and the proof that each static string of GameEffect.ToStr is the
 * SCREAMING_SNAKE_CASE form of its variant's identifier, as module Heck
 * defines that conversion.
 */
module EffectNames {
  import opened GameEffect
  import opened Heck
  import ShoutTable

  /** A Rust identifier, as an optional leading underscore and its camel-case words. */
  datatype Ident = Ident(leadingUnderscore: bool, words: seq<string>)

  /** The identifier each variant is declared with. */
  function Identifier(e: GameEffectEnum): Ident
  {
    match e
    case None => Ident(false, ["None"])
    case Electrocution => Ident(false, ["Electrocution"])
    case Frozen => Ident(false, ["Frozen"])
    case OnFire => Ident(false, ["On", "Fire"])
    case Poison => Ident(false, ["Poison"])
    case Berserk => Ident(false, ["Berserk"])
    case Charm => Ident(false, ["Charm"])
    case Polymorph => Ident(false, ["Polymorph"])
    case PolymorphRandom => Ident(false, ["Polymorph", "Random"])
    case Blindness => Ident(false, ["Blindness"])
    case Telepathy => Ident(false, ["Telepathy"])
    case Teleportation => Ident(false, ["Teleportation"])
    case Regeneration => Ident(false, ["Regeneration"])
    case Levitation => Ident(false, ["Levitation"])
    case MovementSlower => Ident(false, ["Movement", "Slower"])
    case Farts => Ident(false, ["Farts"])
    case Drunk => Ident(false, ["Drunk"])
    case BreathUnderwater => Ident(false, ["Breath", "Underwater"])
    case Radioactive => Ident(false, ["Radioactive"])
    case Wet => Ident(false, ["Wet"])
    case Oiled => Ident(false, ["Oiled"])
    case Bloody => Ident(false, ["Bloody"])
    case Slimy => Ident(false, ["Slimy"])
    case CriticalHitBoost => Ident(false, ["Critical", "Hit", "Boost"])
    case Confusion => Ident(false, ["Confusion"])
    case MeleeCounter => Ident(false, ["Melee", "Counter"])
    case WormAttractor => Ident(false, ["Worm", "Attractor"])
    case WormDetractor => Ident(false, ["Worm", "Detractor"])
    case FoodPoisoning => Ident(false, ["Food", "Poisoning"])
    case FriendThundermage => Ident(false, ["Friend", "Thundermage"])
    case FriendFiremage => Ident(false, ["Friend", "Firemage"])
    case InternalFire => Ident(false, ["Internal", "Fire"])
    case InternalIce => Ident(false, ["Internal", "Ice"])
    case Jarate => Ident(false, ["Jarate"])
    case Knockback => Ident(false, ["Knockback"])
    case KnockbackImmunity => Ident(false, ["Knockback", "Immunity"])
    case MovementSlower2X => Ident(false, ["Movement", "Slower2", "X"])
    case MovementFaster => Ident(false, ["Movement", "Faster"])
    case StainsDropFaster => Ident(false, ["Stains", "Drop", "Faster"])
    case SavingGrace => Ident(false, ["Saving", "Grace"])
    case DamageMultiplier => Ident(false, ["Damage", "Multiplier"])
    case HealingBlood => Ident(false, ["Healing", "Blood"])
    case Respawn => Ident(false, ["Respawn"])
    case ProtectionFire => Ident(false, ["Protection", "Fire"])
    case ProtectionRadioactivity => Ident(false, ["Protection", "Radioactivity"])
    case ProtectionExplosion => Ident(false, ["Protection", "Explosion"])
    case ProtectionMelee => Ident(false, ["Protection", "Melee"])
    case ProtectionElectricity => Ident(false, ["Protection", "Electricity"])
    case Teleportitis => Ident(false, ["Teleportitis"])
    case StainlessArmour => Ident(false, ["Stainless", "Armour"])
    case GlobalGore => Ident(false, ["Global", "Gore"])
    case EditWandsEverywhere => Ident(false, ["Edit", "Wands", "Everywhere"])
    case ExplodingCorpseShots => Ident(false, ["Exploding", "Corpse", "Shots"])
    case ExplodingCorpse => Ident(false, ["Exploding", "Corpse"])
    case ExtraMoney => Ident(false, ["Extra", "Money"])
    case ExtraMoneyTrickKill => Ident(false, ["Extra", "Money", "Trick", "Kill"])
    case HoverBoost => Ident(false, ["Hover", "Boost"])
    case ProjectileHoming => Ident(false, ["Projectile", "Homing"])
    case AbilityActionsMaterialized => Ident(false, ["Ability", "Actions", "Materialized"])
    case NoDamageFlash => Ident(false, ["No", "Damage", "Flash"])
    case NoSlimeSlowdown => Ident(false, ["No", "Slime", "Slowdown"])
    case MovementFaster2X => Ident(false, ["Movement", "Faster2", "X"])
    case NoWandEditing => Ident(false, ["No", "Wand", "Editing"])
    case LowHpDamageBoost => Ident(false, ["Low", "Hp", "Damage", "Boost"])
    case FasterLevitation => Ident(false, ["Faster", "Levitation"])
    case StunProtectionElectricity => Ident(false, ["Stun", "Protection", "Electricity"])
    case StunProtectionFreeze => Ident(false, ["Stun", "Protection", "Freeze"])
    case IronStomach => Ident(false, ["Iron", "Stomach"])
    case ProtectionAll => Ident(false, ["Protection", "All"])
    case Invisibility => Ident(false, ["Invisibility"])
    case RemoveFogOfWar => Ident(false, ["Remove", "Fog", "Of", "War"])
    case ManaRegeneration => Ident(false, ["Mana", "Regeneration"])
    case ProtectionDuringTeleport => Ident(false, ["Protection", "During", "Teleport"])
    case ProtectionPolymorph => Ident(false, ["Protection", "Polymorph"])
    case ProtectionFreeze => Ident(false, ["Protection", "Freeze"])
    case FrozenSpeedUp => Ident(false, ["Frozen", "Speed", "Up"])
    case UnstableTeleportation => Ident(false, ["Unstable", "Teleportation"])
    case PolymorphUnstable => Ident(false, ["Polymorph", "Unstable"])
    case Custom => Ident(false, ["Custom"])
    case AllergyRadioactive => Ident(false, ["Allergy", "Radioactive"])
    case RainbowFarts => Ident(false, ["Rainbow", "Farts"])
    case Weakness => Ident(false, ["Weakness"])
    case ProtectionFoodPoisoning => Ident(false, ["Protection", "Food", "Poisoning"])
    case NoHeal => Ident(false, ["No", "Heal"])
    case ProtectionEdges => Ident(false, ["Protection", "Edges"])
    case ProtectionProjectile => Ident(false, ["Protection", "Projectile"])
    case PolymorphCessation => Ident(false, ["Polymorph", "Cessation"])
    case Last => Ident(true, ["Last"])
  }

  /** The variant's name as written in the source. */
  function RustName(e: GameEffectEnum): string
  {
    var id := Identifier(e);
    (if id.leadingUnderscore then "_" else "") + Concat(id.words)
  }

  lemma IdentifierNone()
    ensures Identifier(None).words == ["None"]
  {
  }

  lemma IdentifierElectrocution()
    ensures Identifier(Electrocution).words == ["Electrocution"]
  {
  }

  lemma IdentifierFrozen()
    ensures Identifier(Frozen).words == ["Frozen"]
  {
  }

  lemma IdentifierOnFire()
    ensures Identifier(OnFire).words == ["On", "Fire"]
  {
  }

  lemma IdentifierPoison()
    ensures Identifier(Poison).words == ["Poison"]
  {
  }

  lemma IdentifierBerserk()
    ensures Identifier(Berserk).words == ["Berserk"]
  {
  }

  lemma IdentifierCharm()
    ensures Identifier(Charm).words == ["Charm"]
  {
  }

  lemma IdentifierPolymorph()
    ensures Identifier(Polymorph).words == ["Polymorph"]
  {
  }

  lemma IdentifierPolymorphRandom()
    ensures Identifier(PolymorphRandom).words == ["Polymorph", "Random"]
  {
  }

  lemma IdentifierBlindness()
    ensures Identifier(Blindness).words == ["Blindness"]
  {
  }

  lemma IdentifierTelepathy()
    ensures Identifier(Telepathy).words == ["Telepathy"]
  {
  }

  lemma IdentifierTeleportation()
    ensures Identifier(Teleportation).words == ["Teleportation"]
  {
  }

  lemma IdentifierRegeneration()
    ensures Identifier(Regeneration).words == ["Regeneration"]
  {
  }

  lemma IdentifierLevitation()
    ensures Identifier(Levitation).words == ["Levitation"]
  {
  }

  lemma IdentifierMovementSlower()
    ensures Identifier(MovementSlower).words == ["Movement", "Slower"]
  {
  }

  lemma IdentifierFarts()
    ensures Identifier(Farts).words == ["Farts"]
  {
  }

  lemma IdentifierDrunk()
    ensures Identifier(Drunk).words == ["Drunk"]
  {
  }

  lemma IdentifierBreathUnderwater()
    ensures Identifier(BreathUnderwater).words == ["Breath", "Underwater"]
  {
  }

  lemma IdentifierRadioactive()
    ensures Identifier(Radioactive).words == ["Radioactive"]
  {
  }

  lemma IdentifierWet()
    ensures Identifier(Wet).words == ["Wet"]
  {
  }

  lemma IdentifierOiled()
    ensures Identifier(Oiled).words == ["Oiled"]
  {
  }

  lemma IdentifierBloody()
    ensures Identifier(Bloody).words == ["Bloody"]
  {
  }

  lemma IdentifierSlimy()
    ensures Identifier(Slimy).words == ["Slimy"]
  {
  }

  lemma IdentifierCriticalHitBoost()
    ensures Identifier(CriticalHitBoost).words == ["Critical", "Hit", "Boost"]
  {
  }

  lemma IdentifierConfusion()
    ensures Identifier(Confusion).words == ["Confusion"]
  {
  }

  lemma IdentifierMeleeCounter()
    ensures Identifier(MeleeCounter).words == ["Melee", "Counter"]
  {
  }

  lemma IdentifierWormAttractor()
    ensures Identifier(WormAttractor).words == ["Worm", "Attractor"]
  {
  }

  lemma IdentifierWormDetractor()
    ensures Identifier(WormDetractor).words == ["Worm", "Detractor"]
  {
  }

  lemma IdentifierFoodPoisoning()
    ensures Identifier(FoodPoisoning).words == ["Food", "Poisoning"]
  {
  }

  lemma IdentifierFriendThundermage()
    ensures Identifier(FriendThundermage).words == ["Friend", "Thundermage"]
  {
  }

  lemma IdentifierFriendFiremage()
    ensures Identifier(FriendFiremage).words == ["Friend", "Firemage"]
  {
  }

  lemma IdentifierInternalFire()
    ensures Identifier(InternalFire).words == ["Internal", "Fire"]
  {
  }

  lemma IdentifierInternalIce()
    ensures Identifier(InternalIce).words == ["Internal", "Ice"]
  {
  }

  lemma IdentifierJarate()
    ensures Identifier(Jarate).words == ["Jarate"]
  {
  }

  lemma IdentifierKnockback()
    ensures Identifier(Knockback).words == ["Knockback"]
  {
  }

  lemma IdentifierKnockbackImmunity()
    ensures Identifier(KnockbackImmunity).words == ["Knockback", "Immunity"]
  {
  }

  lemma IdentifierMovementSlower2X()
    ensures Identifier(MovementSlower2X).words == ["Movement", "Slower2", "X"]
  {
  }

  lemma IdentifierMovementFaster()
    ensures Identifier(MovementFaster).words == ["Movement", "Faster"]
  {
  }

  lemma IdentifierStainsDropFaster()
    ensures Identifier(StainsDropFaster).words == ["Stains", "Drop", "Faster"]
  {
  }

  lemma IdentifierSavingGrace()
    ensures Identifier(SavingGrace).words == ["Saving", "Grace"]
  {
  }

  lemma IdentifierDamageMultiplier()
    ensures Identifier(DamageMultiplier).words == ["Damage", "Multiplier"]
  {
  }

  lemma IdentifierHealingBlood()
    ensures Identifier(HealingBlood).words == ["Healing", "Blood"]
  {
  }

  lemma IdentifierRespawn()
    ensures Identifier(Respawn).words == ["Respawn"]
  {
  }

  lemma IdentifierProtectionFire()
    ensures Identifier(ProtectionFire).words == ["Protection", "Fire"]
  {
  }

  lemma IdentifierProtectionRadioactivity()
    ensures Identifier(ProtectionRadioactivity).words == ["Protection", "Radioactivity"]
  {
  }

  lemma IdentifierProtectionExplosion()
    ensures Identifier(ProtectionExplosion).words == ["Protection", "Explosion"]
  {
  }

  lemma IdentifierProtectionMelee()
    ensures Identifier(ProtectionMelee).words == ["Protection", "Melee"]
  {
  }

  lemma IdentifierProtectionElectricity()
    ensures Identifier(ProtectionElectricity).words == ["Protection", "Electricity"]
  {
  }

  lemma IdentifierTeleportitis()
    ensures Identifier(Teleportitis).words == ["Teleportitis"]
  {
  }

  lemma IdentifierStainlessArmour()
    ensures Identifier(StainlessArmour).words == ["Stainless", "Armour"]
  {
  }

  lemma IdentifierGlobalGore()
    ensures Identifier(GlobalGore).words == ["Global", "Gore"]
  {
  }

  lemma IdentifierEditWandsEverywhere()
    ensures Identifier(EditWandsEverywhere).words == ["Edit", "Wands", "Everywhere"]
  {
  }

  lemma IdentifierExplodingCorpseShots()
    ensures Identifier(ExplodingCorpseShots).words == ["Exploding", "Corpse", "Shots"]
  {
  }

  lemma IdentifierExplodingCorpse()
    ensures Identifier(ExplodingCorpse).words == ["Exploding", "Corpse"]
  {
  }

  lemma IdentifierExtraMoney()
    ensures Identifier(ExtraMoney).words == ["Extra", "Money"]
  {
  }

  lemma IdentifierExtraMoneyTrickKill()
    ensures Identifier(ExtraMoneyTrickKill).words == ["Extra", "Money", "Trick", "Kill"]
  {
  }

  lemma IdentifierHoverBoost()
    ensures Identifier(HoverBoost).words == ["Hover", "Boost"]
  {
  }

  lemma IdentifierProjectileHoming()
    ensures Identifier(ProjectileHoming).words == ["Projectile", "Homing"]
  {
  }

  lemma IdentifierAbilityActionsMaterialized()
    ensures Identifier(AbilityActionsMaterialized).words == ["Ability", "Actions", "Materialized"]
  {
  }

  lemma IdentifierNoDamageFlash()
    ensures Identifier(NoDamageFlash).words == ["No", "Damage", "Flash"]
  {
  }

  lemma IdentifierNoSlimeSlowdown()
    ensures Identifier(NoSlimeSlowdown).words == ["No", "Slime", "Slowdown"]
  {
  }

  lemma IdentifierMovementFaster2X()
    ensures Identifier(MovementFaster2X).words == ["Movement", "Faster2", "X"]
  {
  }

  lemma IdentifierNoWandEditing()
    ensures Identifier(NoWandEditing).words == ["No", "Wand", "Editing"]
  {
  }

  lemma IdentifierLowHpDamageBoost()
    ensures Identifier(LowHpDamageBoost).words == ["Low", "Hp", "Damage", "Boost"]
  {
  }

  lemma IdentifierFasterLevitation()
    ensures Identifier(FasterLevitation).words == ["Faster", "Levitation"]
  {
  }

  lemma IdentifierStunProtectionElectricity()
    ensures Identifier(StunProtectionElectricity).words == ["Stun", "Protection", "Electricity"]
  {
  }

  lemma IdentifierStunProtectionFreeze()
    ensures Identifier(StunProtectionFreeze).words == ["Stun", "Protection", "Freeze"]
  {
  }

  lemma IdentifierIronStomach()
    ensures Identifier(IronStomach).words == ["Iron", "Stomach"]
  {
  }

  lemma IdentifierProtectionAll()
    ensures Identifier(ProtectionAll).words == ["Protection", "All"]
  {
  }

  lemma IdentifierInvisibility()
    ensures Identifier(Invisibility).words == ["Invisibility"]
  {
  }

  lemma IdentifierRemoveFogOfWar()
    ensures Identifier(RemoveFogOfWar).words == ["Remove", "Fog", "Of", "War"]
  {
  }

  lemma IdentifierManaRegeneration()
    ensures Identifier(ManaRegeneration).words == ["Mana", "Regeneration"]
  {
  }

  lemma IdentifierProtectionDuringTeleport()
    ensures Identifier(ProtectionDuringTeleport).words == ["Protection", "During", "Teleport"]
  {
  }

  lemma IdentifierProtectionPolymorph()
    ensures Identifier(ProtectionPolymorph).words == ["Protection", "Polymorph"]
  {
  }

  lemma IdentifierProtectionFreeze()
    ensures Identifier(ProtectionFreeze).words == ["Protection", "Freeze"]
  {
  }

  lemma IdentifierFrozenSpeedUp()
    ensures Identifier(FrozenSpeedUp).words == ["Frozen", "Speed", "Up"]
  {
  }

  lemma IdentifierUnstableTeleportation()
    ensures Identifier(UnstableTeleportation).words == ["Unstable", "Teleportation"]
  {
  }

  lemma IdentifierPolymorphUnstable()
    ensures Identifier(PolymorphUnstable).words == ["Polymorph", "Unstable"]
  {
  }

  lemma IdentifierCustom()
    ensures Identifier(GameEffectEnum.Custom).words == ["Custom"]
  {
  }

  lemma IdentifierAllergyRadioactive()
    ensures Identifier(AllergyRadioactive).words == ["Allergy", "Radioactive"]
  {
  }

  lemma IdentifierRainbowFarts()
    ensures Identifier(RainbowFarts).words == ["Rainbow", "Farts"]
  {
  }

  lemma IdentifierWeakness()
    ensures Identifier(Weakness).words == ["Weakness"]
  {
  }

  lemma IdentifierProtectionFoodPoisoning()
    ensures Identifier(ProtectionFoodPoisoning).words == ["Protection", "Food", "Poisoning"]
  {
  }

  lemma IdentifierNoHeal()
    ensures Identifier(NoHeal).words == ["No", "Heal"]
  {
  }

  lemma IdentifierProtectionEdges()
    ensures Identifier(ProtectionEdges).words == ["Protection", "Edges"]
  {
  }

  lemma IdentifierProtectionProjectile()
    ensures Identifier(ProtectionProjectile).words == ["Protection", "Projectile"]
  {
  }

  lemma IdentifierPolymorphCessation()
    ensures Identifier(PolymorphCessation).words == ["Polymorph", "Cessation"]
  {
  }

  lemma IdentifierLast()
    ensures Identifier(Last).words == ["Last"]
  {
  }

  lemma RowNone()
    ensures WellFormedWords(Identifier(None).words) && JoinUpper(Identifier(None).words) == ToStr(None)
  {
    IdentifierNone();
    ToStrNone();
    ShoutTable.ShoutNone();
  }

  lemma RowElectrocution()
    ensures WellFormedWords(Identifier(Electrocution).words) && JoinUpper(Identifier(Electrocution).words) == ToStr(Electrocution)
  {
    IdentifierElectrocution();
    ToStrElectrocution();
    ShoutTable.ShoutElectrocution();
  }

  lemma RowFrozen()
    ensures WellFormedWords(Identifier(Frozen).words) && JoinUpper(Identifier(Frozen).words) == ToStr(Frozen)
  {
    IdentifierFrozen();
    ToStrFrozen();
    ShoutTable.ShoutFrozen();
  }

  lemma RowOnFire()
    ensures WellFormedWords(Identifier(OnFire).words) && JoinUpper(Identifier(OnFire).words) == ToStr(OnFire)
  {
    IdentifierOnFire();
    ToStrOnFire();
    ShoutTable.ShoutOnFire();
  }

  lemma RowPoison()
    ensures WellFormedWords(Identifier(Poison).words) && JoinUpper(Identifier(Poison).words) == ToStr(Poison)
  {
    IdentifierPoison();
    ToStrPoison();
    ShoutTable.ShoutPoison();
  }

  lemma RowBerserk()
    ensures WellFormedWords(Identifier(Berserk).words) && JoinUpper(Identifier(Berserk).words) == ToStr(Berserk)
  {
    IdentifierBerserk();
    ToStrBerserk();
    ShoutTable.ShoutBerserk();
  }

  lemma RowCharm()
    ensures WellFormedWords(Identifier(Charm).words) && JoinUpper(Identifier(Charm).words) == ToStr(Charm)
  {
    IdentifierCharm();
    ToStrCharm();
    ShoutTable.ShoutCharm();
  }

  lemma RowPolymorph()
    ensures WellFormedWords(Identifier(Polymorph).words) && JoinUpper(Identifier(Polymorph).words) == ToStr(Polymorph)
  {
    IdentifierPolymorph();
    ToStrPolymorph();
    ShoutTable.ShoutPolymorph();
  }

  lemma RowPolymorphRandom()
    ensures WellFormedWords(Identifier(PolymorphRandom).words) && JoinUpper(Identifier(PolymorphRandom).words) == ToStr(PolymorphRandom)
  {
    IdentifierPolymorphRandom();
    ToStrPolymorphRandom();
    ShoutTable.ShoutPolymorphRandom();
  }

  lemma RowBlindness()
    ensures WellFormedWords(Identifier(Blindness).words) && JoinUpper(Identifier(Blindness).words) == ToStr(Blindness)
  {
    IdentifierBlindness();
    ToStrBlindness();
    ShoutTable.ShoutBlindness();
  }

  lemma RowTelepathy()
    ensures WellFormedWords(Identifier(Telepathy).words) && JoinUpper(Identifier(Telepathy).words) == ToStr(Telepathy)
  {
    IdentifierTelepathy();
    ToStrTelepathy();
    ShoutTable.ShoutTelepathy();
  }

  lemma RowTeleportation()
    ensures WellFormedWords(Identifier(Teleportation).words) && JoinUpper(Identifier(Teleportation).words) == ToStr(Teleportation)
  {
    IdentifierTeleportation();
    ToStrTeleportation();
    ShoutTable.ShoutTeleportation();
  }

  lemma RowRegeneration()
    ensures WellFormedWords(Identifier(Regeneration).words) && JoinUpper(Identifier(Regeneration).words) == ToStr(Regeneration)
  {
    IdentifierRegeneration();
    ToStrRegeneration();
    ShoutTable.ShoutRegeneration();
  }

  lemma RowLevitation()
    ensures WellFormedWords(Identifier(Levitation).words) && JoinUpper(Identifier(Levitation).words) == ToStr(Levitation)
  {
    IdentifierLevitation();
    ToStrLevitation();
    ShoutTable.ShoutLevitation();
  }

  lemma RowMovementSlower()
    ensures WellFormedWords(Identifier(MovementSlower).words) && JoinUpper(Identifier(MovementSlower).words) == ToStr(MovementSlower)
  {
    IdentifierMovementSlower();
    ToStrMovementSlower();
    ShoutTable.ShoutMovementSlower();
  }

  lemma RowFarts()
    ensures WellFormedWords(Identifier(Farts).words) && JoinUpper(Identifier(Farts).words) == ToStr(Farts)
  {
    IdentifierFarts();
    ToStrFarts();
    ShoutTable.ShoutFarts();
  }

  lemma RowDrunk()
    ensures WellFormedWords(Identifier(Drunk).words) && JoinUpper(Identifier(Drunk).words) == ToStr(Drunk)
  {
    IdentifierDrunk();
    ToStrDrunk();
    ShoutTable.ShoutDrunk();
  }

  lemma RowBreathUnderwater()
    ensures WellFormedWords(Identifier(BreathUnderwater).words) && JoinUpper(Identifier(BreathUnderwater).words) == ToStr(BreathUnderwater)
  {
    IdentifierBreathUnderwater();
    ToStrBreathUnderwater();
    ShoutTable.ShoutBreathUnderwater();
  }

  lemma RowRadioactive()
    ensures WellFormedWords(Identifier(Radioactive).words) && JoinUpper(Identifier(Radioactive).words) == ToStr(Radioactive)
  {
    IdentifierRadioactive();
    ToStrRadioactive();
    ShoutTable.ShoutRadioactive();
  }

  lemma RowWet()
    ensures WellFormedWords(Identifier(Wet).words) && JoinUpper(Identifier(Wet).words) == ToStr(Wet)
  {
    IdentifierWet();
    ToStrWet();
    ShoutTable.ShoutWet();
  }

  lemma RowOiled()
    ensures WellFormedWords(Identifier(Oiled).words) && JoinUpper(Identifier(Oiled).words) == ToStr(Oiled)
  {
    IdentifierOiled();
    ToStrOiled();
    ShoutTable.ShoutOiled();
  }

  lemma RowBloody()
    ensures WellFormedWords(Identifier(Bloody).words) && JoinUpper(Identifier(Bloody).words) == ToStr(Bloody)
  {
    IdentifierBloody();
    ToStrBloody();
    ShoutTable.ShoutBloody();
  }

  lemma RowSlimy()
    ensures WellFormedWords(Identifier(Slimy).words) && JoinUpper(Identifier(Slimy).words) == ToStr(Slimy)
  {
    IdentifierSlimy();
    ToStrSlimy();
    ShoutTable.ShoutSlimy();
  }

  lemma RowCriticalHitBoost()
    ensures WellFormedWords(Identifier(CriticalHitBoost).words) && JoinUpper(Identifier(CriticalHitBoost).words) == ToStr(CriticalHitBoost)
  {
    IdentifierCriticalHitBoost();
    ToStrCriticalHitBoost();
    ShoutTable.ShoutCriticalHitBoost();
  }

  lemma RowConfusion()
    ensures WellFormedWords(Identifier(Confusion).words) && JoinUpper(Identifier(Confusion).words) == ToStr(Confusion)
  {
    IdentifierConfusion();
    ToStrConfusion();
    ShoutTable.ShoutConfusion();
  }

  lemma RowMeleeCounter()
    ensures WellFormedWords(Identifier(MeleeCounter).words) && JoinUpper(Identifier(MeleeCounter).words) == ToStr(MeleeCounter)
  {
    IdentifierMeleeCounter();
    ToStrMeleeCounter();
    ShoutTable.ShoutMeleeCounter();
  }

  lemma RowWormAttractor()
    ensures WellFormedWords(Identifier(WormAttractor).words) && JoinUpper(Identifier(WormAttractor).words) == ToStr(WormAttractor)
  {
    IdentifierWormAttractor();
    ToStrWormAttractor();
    ShoutTable.ShoutWormAttractor();
  }

  lemma RowWormDetractor()
    ensures WellFormedWords(Identifier(WormDetractor).words) && JoinUpper(Identifier(WormDetractor).words) == ToStr(WormDetractor)
  {
    IdentifierWormDetractor();
    ToStrWormDetractor();
    ShoutTable.ShoutWormDetractor();
  }

  lemma RowFoodPoisoning()
    ensures WellFormedWords(Identifier(FoodPoisoning).words) && JoinUpper(Identifier(FoodPoisoning).words) == ToStr(FoodPoisoning)
  {
    IdentifierFoodPoisoning();
    ToStrFoodPoisoning();
    ShoutTable.ShoutFoodPoisoning();
  }

  lemma RowFriendThundermage()
    ensures WellFormedWords(Identifier(FriendThundermage).words) && JoinUpper(Identifier(FriendThundermage).words) == ToStr(FriendThundermage)
  {
    IdentifierFriendThundermage();
    ToStrFriendThundermage();
    ShoutTable.ShoutFriendThundermage();
  }

  lemma RowFriendFiremage()
    ensures WellFormedWords(Identifier(FriendFiremage).words) && JoinUpper(Identifier(FriendFiremage).words) == ToStr(FriendFiremage)
  {
    IdentifierFriendFiremage();
    ToStrFriendFiremage();
    ShoutTable.ShoutFriendFiremage();
  }

  lemma RowInternalFire()
    ensures WellFormedWords(Identifier(InternalFire).words) && JoinUpper(Identifier(InternalFire).words) == ToStr(InternalFire)
  {
    IdentifierInternalFire();
    ToStrInternalFire();
    ShoutTable.ShoutInternalFire();
  }

  lemma RowInternalIce()
    ensures WellFormedWords(Identifier(InternalIce).words) && JoinUpper(Identifier(InternalIce).words) == ToStr(InternalIce)
  {
    IdentifierInternalIce();
    ToStrInternalIce();
    ShoutTable.ShoutInternalIce();
  }

  lemma RowJarate()
    ensures WellFormedWords(Identifier(Jarate).words) && JoinUpper(Identifier(Jarate).words) == ToStr(Jarate)
  {
    IdentifierJarate();
    ToStrJarate();
    ShoutTable.ShoutJarate();
  }

  lemma RowKnockback()
    ensures WellFormedWords(Identifier(Knockback).words) && JoinUpper(Identifier(Knockback).words) == ToStr(Knockback)
  {
    IdentifierKnockback();
    ToStrKnockback();
    ShoutTable.ShoutKnockback();
  }

  lemma RowKnockbackImmunity()
    ensures WellFormedWords(Identifier(KnockbackImmunity).words) && JoinUpper(Identifier(KnockbackImmunity).words) == ToStr(KnockbackImmunity)
  {
    IdentifierKnockbackImmunity();
    ToStrKnockbackImmunity();
    ShoutTable.ShoutKnockbackImmunity();
  }

  lemma RowMovementSlower2X()
    ensures WellFormedWords(Identifier(MovementSlower2X).words) && JoinUpper(Identifier(MovementSlower2X).words) == ToStr(MovementSlower2X)
  {
    IdentifierMovementSlower2X();
    ToStrMovementSlower2X();
    ShoutTable.ShoutMovementSlower2X();
  }

  lemma RowMovementFaster()
    ensures WellFormedWords(Identifier(MovementFaster).words) && JoinUpper(Identifier(MovementFaster).words) == ToStr(MovementFaster)
  {
    IdentifierMovementFaster();
    ToStrMovementFaster();
    ShoutTable.ShoutMovementFaster();
  }

  lemma RowStainsDropFaster()
    ensures WellFormedWords(Identifier(StainsDropFaster).words) && JoinUpper(Identifier(StainsDropFaster).words) == ToStr(StainsDropFaster)
  {
    IdentifierStainsDropFaster();
    ToStrStainsDropFaster();
    ShoutTable.ShoutStainsDropFaster();
  }

  lemma RowSavingGrace()
    ensures WellFormedWords(Identifier(SavingGrace).words) && JoinUpper(Identifier(SavingGrace).words) == ToStr(SavingGrace)
  {
    IdentifierSavingGrace();
    ToStrSavingGrace();
    ShoutTable.ShoutSavingGrace();
  }

  lemma RowDamageMultiplier()
    ensures WellFormedWords(Identifier(DamageMultiplier).words) && JoinUpper(Identifier(DamageMultiplier).words) == ToStr(DamageMultiplier)
  {
    IdentifierDamageMultiplier();
    ToStrDamageMultiplier();
    ShoutTable.ShoutDamageMultiplier();
  }

  lemma RowHealingBlood()
    ensures WellFormedWords(Identifier(HealingBlood).words) && JoinUpper(Identifier(HealingBlood).words) == ToStr(HealingBlood)
  {
    IdentifierHealingBlood();
    ToStrHealingBlood();
    ShoutTable.ShoutHealingBlood();
  }

  lemma RowRespawn()
    ensures WellFormedWords(Identifier(Respawn).words) && JoinUpper(Identifier(Respawn).words) == ToStr(Respawn)
  {
    IdentifierRespawn();
    ToStrRespawn();
    ShoutTable.ShoutRespawn();
  }

  lemma RowProtectionFire()
    ensures WellFormedWords(Identifier(ProtectionFire).words) && JoinUpper(Identifier(ProtectionFire).words) == ToStr(ProtectionFire)
  {
    IdentifierProtectionFire();
    ToStrProtectionFire();
    ShoutTable.ShoutProtectionFire();
  }

  lemma RowProtectionRadioactivity()
    ensures WellFormedWords(Identifier(ProtectionRadioactivity).words) && JoinUpper(Identifier(ProtectionRadioactivity).words) == ToStr(ProtectionRadioactivity)
  {
    IdentifierProtectionRadioactivity();
    ToStrProtectionRadioactivity();
    ShoutTable.ShoutProtectionRadioactivity();
  }

  lemma RowProtectionExplosion()
    ensures WellFormedWords(Identifier(ProtectionExplosion).words) && JoinUpper(Identifier(ProtectionExplosion).words) == ToStr(ProtectionExplosion)
  {
    IdentifierProtectionExplosion();
    ToStrProtectionExplosion();
    ShoutTable.ShoutProtectionExplosion();
  }

  lemma RowProtectionMelee()
    ensures WellFormedWords(Identifier(ProtectionMelee).words) && JoinUpper(Identifier(ProtectionMelee).words) == ToStr(ProtectionMelee)
  {
    IdentifierProtectionMelee();
    ToStrProtectionMelee();
    ShoutTable.ShoutProtectionMelee();
  }

  lemma RowProtectionElectricity()
    ensures WellFormedWords(Identifier(ProtectionElectricity).words) && JoinUpper(Identifier(ProtectionElectricity).words) == ToStr(ProtectionElectricity)
  {
    IdentifierProtectionElectricity();
    ToStrProtectionElectricity();
    ShoutTable.ShoutProtectionElectricity();
  }

  lemma RowTeleportitis()
    ensures WellFormedWords(Identifier(Teleportitis).words) && JoinUpper(Identifier(Teleportitis).words) == ToStr(Teleportitis)
  {
    IdentifierTeleportitis();
    ToStrTeleportitis();
    ShoutTable.ShoutTeleportitis();
  }

  lemma RowStainlessArmour()
    ensures WellFormedWords(Identifier(StainlessArmour).words) && JoinUpper(Identifier(StainlessArmour).words) == ToStr(StainlessArmour)
  {
    IdentifierStainlessArmour();
    ToStrStainlessArmour();
    ShoutTable.ShoutStainlessArmour();
  }

  lemma RowGlobalGore()
    ensures WellFormedWords(Identifier(GlobalGore).words) && JoinUpper(Identifier(GlobalGore).words) == ToStr(GlobalGore)
  {
    IdentifierGlobalGore();
    ToStrGlobalGore();
    ShoutTable.ShoutGlobalGore();
  }

  lemma RowEditWandsEverywhere()
    ensures WellFormedWords(Identifier(EditWandsEverywhere).words) && JoinUpper(Identifier(EditWandsEverywhere).words) == ToStr(EditWandsEverywhere)
  {
    IdentifierEditWandsEverywhere();
    ToStrEditWandsEverywhere();
    ShoutTable.ShoutEditWandsEverywhere();
  }

  lemma RowExplodingCorpseShots()
    ensures WellFormedWords(Identifier(ExplodingCorpseShots).words) && JoinUpper(Identifier(ExplodingCorpseShots).words) == ToStr(ExplodingCorpseShots)
  {
    IdentifierExplodingCorpseShots();
    ToStrExplodingCorpseShots();
    ShoutTable.ShoutExplodingCorpseShots();
  }

  lemma RowExplodingCorpse()
    ensures WellFormedWords(Identifier(ExplodingCorpse).words) && JoinUpper(Identifier(ExplodingCorpse).words) == ToStr(ExplodingCorpse)
  {
    IdentifierExplodingCorpse();
    ToStrExplodingCorpse();
    ShoutTable.ShoutExplodingCorpse();
  }

  lemma RowExtraMoney()
    ensures WellFormedWords(Identifier(ExtraMoney).words) && JoinUpper(Identifier(ExtraMoney).words) == ToStr(ExtraMoney)
  {
    IdentifierExtraMoney();
    ToStrExtraMoney();
    ShoutTable.ShoutExtraMoney();
  }

  lemma RowExtraMoneyTrickKill()
    ensures WellFormedWords(Identifier(ExtraMoneyTrickKill).words) && JoinUpper(Identifier(ExtraMoneyTrickKill).words) == ToStr(ExtraMoneyTrickKill)
  {
    IdentifierExtraMoneyTrickKill();
    ToStrExtraMoneyTrickKill();
    ShoutTable.ShoutExtraMoneyTrickKill();
  }

  lemma RowHoverBoost()
    ensures WellFormedWords(Identifier(HoverBoost).words) && JoinUpper(Identifier(HoverBoost).words) == ToStr(HoverBoost)
  {
    IdentifierHoverBoost();
    ToStrHoverBoost();
    ShoutTable.ShoutHoverBoost();
  }

  lemma RowProjectileHoming()
    ensures WellFormedWords(Identifier(ProjectileHoming).words) && JoinUpper(Identifier(ProjectileHoming).words) == ToStr(ProjectileHoming)
  {
    IdentifierProjectileHoming();
    ToStrProjectileHoming();
    ShoutTable.ShoutProjectileHoming();
  }

  lemma RowAbilityActionsMaterialized()
    ensures WellFormedWords(Identifier(AbilityActionsMaterialized).words) && JoinUpper(Identifier(AbilityActionsMaterialized).words) == ToStr(AbilityActionsMaterialized)
  {
    IdentifierAbilityActionsMaterialized();
    ToStrAbilityActionsMaterialized();
    ShoutTable.ShoutAbilityActionsMaterialized();
  }

  lemma RowNoDamageFlash()
    ensures WellFormedWords(Identifier(NoDamageFlash).words) && JoinUpper(Identifier(NoDamageFlash).words) == ToStr(NoDamageFlash)
  {
    IdentifierNoDamageFlash();
    ToStrNoDamageFlash();
    ShoutTable.ShoutNoDamageFlash();
  }

  lemma RowNoSlimeSlowdown()
    ensures WellFormedWords(Identifier(NoSlimeSlowdown).words) && JoinUpper(Identifier(NoSlimeSlowdown).words) == ToStr(NoSlimeSlowdown)
  {
    IdentifierNoSlimeSlowdown();
    ToStrNoSlimeSlowdown();
    ShoutTable.ShoutNoSlimeSlowdown();
  }

  lemma RowMovementFaster2X()
    ensures WellFormedWords(Identifier(MovementFaster2X).words) && JoinUpper(Identifier(MovementFaster2X).words) == ToStr(MovementFaster2X)
  {
    IdentifierMovementFaster2X();
    ToStrMovementFaster2X();
    ShoutTable.ShoutMovementFaster2X();
  }

  lemma RowNoWandEditing()
    ensures WellFormedWords(Identifier(NoWandEditing).words) && JoinUpper(Identifier(NoWandEditing).words) == ToStr(NoWandEditing)
  {
    IdentifierNoWandEditing();
    ToStrNoWandEditing();
    ShoutTable.ShoutNoWandEditing();
  }

  lemma RowLowHpDamageBoost()
    ensures WellFormedWords(Identifier(LowHpDamageBoost).words) && JoinUpper(Identifier(LowHpDamageBoost).words) == ToStr(LowHpDamageBoost)
  {
    IdentifierLowHpDamageBoost();
    ToStrLowHpDamageBoost();
    ShoutTable.ShoutLowHpDamageBoost();
  }

  lemma RowFasterLevitation()
    ensures WellFormedWords(Identifier(FasterLevitation).words) && JoinUpper(Identifier(FasterLevitation).words) == ToStr(FasterLevitation)
  {
    IdentifierFasterLevitation();
    ToStrFasterLevitation();
    ShoutTable.ShoutFasterLevitation();
  }

  lemma RowStunProtectionElectricity()
    ensures WellFormedWords(Identifier(StunProtectionElectricity).words) && JoinUpper(Identifier(StunProtectionElectricity).words) == ToStr(StunProtectionElectricity)
  {
    IdentifierStunProtectionElectricity();
    ToStrStunProtectionElectricity();
    ShoutTable.ShoutStunProtectionElectricity();
  }

  lemma RowStunProtectionFreeze()
    ensures WellFormedWords(Identifier(StunProtectionFreeze).words) && JoinUpper(Identifier(StunProtectionFreeze).words) == ToStr(StunProtectionFreeze)
  {
    IdentifierStunProtectionFreeze();
    ToStrStunProtectionFreeze();
    ShoutTable.ShoutStunProtectionFreeze();
  }

  lemma RowIronStomach()
    ensures WellFormedWords(Identifier(IronStomach).words) && JoinUpper(Identifier(IronStomach).words) == ToStr(IronStomach)
  {
    IdentifierIronStomach();
    ToStrIronStomach();
    ShoutTable.ShoutIronStomach();
  }

  lemma RowProtectionAll()
    ensures WellFormedWords(Identifier(ProtectionAll).words) && JoinUpper(Identifier(ProtectionAll).words) == ToStr(ProtectionAll)
  {
    IdentifierProtectionAll();
    ToStrProtectionAll();
    ShoutTable.ShoutProtectionAll();
  }

  lemma RowInvisibility()
    ensures WellFormedWords(Identifier(Invisibility).words) && JoinUpper(Identifier(Invisibility).words) == ToStr(Invisibility)
  {
    IdentifierInvisibility();
    ToStrInvisibility();
    ShoutTable.ShoutInvisibility();
  }

  lemma RowRemoveFogOfWar()
    ensures WellFormedWords(Identifier(RemoveFogOfWar).words) && JoinUpper(Identifier(RemoveFogOfWar).words) == ToStr(RemoveFogOfWar)
  {
    IdentifierRemoveFogOfWar();
    ToStrRemoveFogOfWar();
    ShoutTable.ShoutRemoveFogOfWar();
  }

  lemma RowManaRegeneration()
    ensures WellFormedWords(Identifier(ManaRegeneration).words) && JoinUpper(Identifier(ManaRegeneration).words) == ToStr(ManaRegeneration)
  {
    IdentifierManaRegeneration();
    ToStrManaRegeneration();
    ShoutTable.ShoutManaRegeneration();
  }

  lemma RowProtectionDuringTeleport()
    ensures WellFormedWords(Identifier(ProtectionDuringTeleport).words) && JoinUpper(Identifier(ProtectionDuringTeleport).words) == ToStr(ProtectionDuringTeleport)
  {
    IdentifierProtectionDuringTeleport();
    ToStrProtectionDuringTeleport();
    ShoutTable.ShoutProtectionDuringTeleport();
  }

  lemma RowProtectionPolymorph()
    ensures WellFormedWords(Identifier(ProtectionPolymorph).words) && JoinUpper(Identifier(ProtectionPolymorph).words) == ToStr(ProtectionPolymorph)
  {
    IdentifierProtectionPolymorph();
    ToStrProtectionPolymorph();
    ShoutTable.ShoutProtectionPolymorph();
  }

  lemma RowProtectionFreeze()
    ensures WellFormedWords(Identifier(ProtectionFreeze).words) && JoinUpper(Identifier(ProtectionFreeze).words) == ToStr(ProtectionFreeze)
  {
    IdentifierProtectionFreeze();
    ToStrProtectionFreeze();
    ShoutTable.ShoutProtectionFreeze();
  }

  lemma RowFrozenSpeedUp()
    ensures WellFormedWords(Identifier(FrozenSpeedUp).words) && JoinUpper(Identifier(FrozenSpeedUp).words) == ToStr(FrozenSpeedUp)
  {
    IdentifierFrozenSpeedUp();
    ToStrFrozenSpeedUp();
    ShoutTable.ShoutFrozenSpeedUp();
  }

  lemma RowUnstableTeleportation()
    ensures WellFormedWords(Identifier(UnstableTeleportation).words) && JoinUpper(Identifier(UnstableTeleportation).words) == ToStr(UnstableTeleportation)
  {
    IdentifierUnstableTeleportation();
    ToStrUnstableTeleportation();
    ShoutTable.ShoutUnstableTeleportation();
  }

  lemma RowPolymorphUnstable()
    ensures WellFormedWords(Identifier(PolymorphUnstable).words) && JoinUpper(Identifier(PolymorphUnstable).words) == ToStr(PolymorphUnstable)
  {
    IdentifierPolymorphUnstable();
    ToStrPolymorphUnstable();
    ShoutTable.ShoutPolymorphUnstable();
  }

  lemma RowCustom()
    ensures WellFormedWords(Identifier(GameEffectEnum.Custom).words) && JoinUpper(Identifier(GameEffectEnum.Custom).words) == ToStr(GameEffectEnum.Custom)
  {
    IdentifierCustom();
    ToStrCustom();
    ShoutTable.ShoutCustom();
  }

  lemma RowAllergyRadioactive()
    ensures WellFormedWords(Identifier(AllergyRadioactive).words) && JoinUpper(Identifier(AllergyRadioactive).words) == ToStr(AllergyRadioactive)
  {
    IdentifierAllergyRadioactive();
    ToStrAllergyRadioactive();
    ShoutTable.ShoutAllergyRadioactive();
  }

  lemma RowRainbowFarts()
    ensures WellFormedWords(Identifier(RainbowFarts).words) && JoinUpper(Identifier(RainbowFarts).words) == ToStr(RainbowFarts)
  {
    IdentifierRainbowFarts();
    ToStrRainbowFarts();
    ShoutTable.ShoutRainbowFarts();
  }

  lemma RowWeakness()
    ensures WellFormedWords(Identifier(Weakness).words) && JoinUpper(Identifier(Weakness).words) == ToStr(Weakness)
  {
    IdentifierWeakness();
    ToStrWeakness();
    ShoutTable.ShoutWeakness();
  }

  lemma RowProtectionFoodPoisoning()
    ensures WellFormedWords(Identifier(ProtectionFoodPoisoning).words) && JoinUpper(Identifier(ProtectionFoodPoisoning).words) == ToStr(ProtectionFoodPoisoning)
  {
    IdentifierProtectionFoodPoisoning();
    ToStrProtectionFoodPoisoning();
    ShoutTable.ShoutProtectionFoodPoisoning();
  }

  lemma RowNoHeal()
    ensures WellFormedWords(Identifier(NoHeal).words) && JoinUpper(Identifier(NoHeal).words) == ToStr(NoHeal)
  {
    IdentifierNoHeal();
    ToStrNoHeal();
    ShoutTable.ShoutNoHeal();
  }

  lemma RowProtectionEdges()
    ensures WellFormedWords(Identifier(ProtectionEdges).words) && JoinUpper(Identifier(ProtectionEdges).words) == ToStr(ProtectionEdges)
  {
    IdentifierProtectionEdges();
    ToStrProtectionEdges();
    ShoutTable.ShoutProtectionEdges();
  }

  lemma RowProtectionProjectile()
    ensures WellFormedWords(Identifier(ProtectionProjectile).words) && JoinUpper(Identifier(ProtectionProjectile).words) == ToStr(ProtectionProjectile)
  {
    IdentifierProtectionProjectile();
    ToStrProtectionProjectile();
    ShoutTable.ShoutProtectionProjectile();
  }

  lemma RowPolymorphCessation()
    ensures WellFormedWords(Identifier(PolymorphCessation).words) && JoinUpper(Identifier(PolymorphCessation).words) == ToStr(PolymorphCessation)
  {
    IdentifierPolymorphCessation();
    ToStrPolymorphCessation();
    ShoutTable.ShoutPolymorphCessation();
  }

  lemma RowLast()
    ensures WellFormedWords(Identifier(Last).words) && JoinUpper(Identifier(Last).words) == ToStr(Last)
  {
    IdentifierLast();
    ToStrLast();
    ShoutTable.ShoutLast();
  }

  lemma TableRowsFromNone(e: GameEffectEnum)
    requires e.None? || e.Electrocution? || e.Frozen? || e.OnFire?
    ensures WellFormedWords(Identifier(e).words) && JoinUpper(Identifier(e).words) == ToStr(e)
  {
    if e == None {
      RowNone();
    } else if e == Electrocution {
      RowElectrocution();
    } else if e == Frozen {
      RowFrozen();
    } else {
      RowOnFire();
    }
  }

  lemma TableRowsFromPoison(e: GameEffectEnum)
    requires e.Poison? || e.Berserk? || e.Charm? || e.Polymorph?
    ensures WellFormedWords(Identifier(e).words) && JoinUpper(Identifier(e).words) == ToStr(e)
  {
    if e == Poison {
      RowPoison();
    } else if e == Berserk {
      RowBerserk();
    } else if e == Charm {
      RowCharm();
    } else {
      RowPolymorph();
    }
  }

  lemma TableRowsFromPolymorphRandom(e: GameEffectEnum)
    requires e.PolymorphRandom? || e.Blindness? || e.Telepathy? || e.Teleportation?
    ensures WellFormedWords(Identifier(e).words) && JoinUpper(Identifier(e).words) == ToStr(e)
  {
    if e == PolymorphRandom {
      RowPolymorphRandom();
    } else if e == Blindness {
      RowBlindness();
    } else if e == Telepathy {
      RowTelepathy();
    } else {
      RowTeleportation();
    }
  }

  lemma TableRowsFromRegeneration(e: GameEffectEnum)
    requires e.Regeneration? || e.Levitation? || e.MovementSlower? || e.Farts?
    ensures WellFormedWords(Identifier(e).words) && JoinUpper(Identifier(e).words) == ToStr(e)
  {
    if e == Regeneration {
      RowRegeneration();
    } else if e == Levitation {
      RowLevitation();
    } else if e == MovementSlower {
      RowMovementSlower();
    } else {
      RowFarts();
    }
  }

  lemma TableRowsFromDrunk(e: GameEffectEnum)
    requires e.Drunk? || e.BreathUnderwater? || e.Radioactive? || e.Wet?
    ensures WellFormedWords(Identifier(e).words) && JoinUpper(Identifier(e).words) == ToStr(e)
  {
    if e == Drunk {
      RowDrunk();
    } else if e == BreathUnderwater {
      RowBreathUnderwater();
    } else if e == Radioactive {
      RowRadioactive();
    } else {
      RowWet();
    }
  }

  lemma TableRowsFromOiled(e: GameEffectEnum)
    requires e.Oiled? || e.Bloody? || e.Slimy? || e.CriticalHitBoost?
    ensures WellFormedWords(Identifier(e).words) && JoinUpper(Identifier(e).words) == ToStr(e)
  {
    if e == Oiled {
      RowOiled();
    } else if e == Bloody {
      RowBloody();
    } else if e == Slimy {
      RowSlimy();
    } else {
      RowCriticalHitBoost();
    }
  }

  lemma TableRowsFromConfusion(e: GameEffectEnum)
    requires e.Confusion? || e.MeleeCounter? || e.WormAttractor? || e.WormDetractor?
    ensures WellFormedWords(Identifier(e).words) && JoinUpper(Identifier(e).words) == ToStr(e)
  {
    if e == Confusion {
      RowConfusion();
    } else if e == MeleeCounter {
      RowMeleeCounter();
    } else if e == WormAttractor {
      RowWormAttractor();
    } else {
      RowWormDetractor();
    }
  }

  lemma TableRowsFromFoodPoisoning(e: GameEffectEnum)
    requires e.FoodPoisoning? || e.FriendThundermage? || e.FriendFiremage? || e.InternalFire?
    ensures WellFormedWords(Identifier(e).words) && JoinUpper(Identifier(e).words) == ToStr(e)
  {
    if e == FoodPoisoning {
      RowFoodPoisoning();
    } else if e == FriendThundermage {
      RowFriendThundermage();
    } else if e == FriendFiremage {
      RowFriendFiremage();
    } else {
      RowInternalFire();
    }
  }

  lemma TableRowsFromInternalIce(e: GameEffectEnum)
    requires e.InternalIce? || e.Jarate? || e.Knockback? || e.KnockbackImmunity?
    ensures WellFormedWords(Identifier(e).words) && JoinUpper(Identifier(e).words) == ToStr(e)
  {
    if e == InternalIce {
      RowInternalIce();
    } else if e == Jarate {
      RowJarate();
    } else if e == Knockback {
      RowKnockback();
    } else {
      RowKnockbackImmunity();
    }
  }

  lemma TableRowsFromMovementSlower2X(e: GameEffectEnum)
    requires e.MovementSlower2X? || e.MovementFaster? || e.StainsDropFaster? || e.SavingGrace?
    ensures WellFormedWords(Identifier(e).words) && JoinUpper(Identifier(e).words) == ToStr(e)
  {
    if e == MovementSlower2X {
      RowMovementSlower2X();
    } else if e == MovementFaster {
      RowMovementFaster();
    } else if e == StainsDropFaster {
      RowStainsDropFaster();
    } else {
      RowSavingGrace();
    }
  }

  lemma TableRowsFromDamageMultiplier(e: GameEffectEnum)
    requires e.DamageMultiplier? || e.HealingBlood? || e.Respawn? || e.ProtectionFire?
    ensures WellFormedWords(Identifier(e).words) && JoinUpper(Identifier(e).words) == ToStr(e)
  {
    if e == DamageMultiplier {
      RowDamageMultiplier();
    } else if e == HealingBlood {
      RowHealingBlood();
    } else if e == Respawn {
      RowRespawn();
    } else {
      RowProtectionFire();
    }
  }

  lemma TableRowsFromProtectionRadioactivity(e: GameEffectEnum)
    requires e.ProtectionRadioactivity? || e.ProtectionExplosion? || e.ProtectionMelee? || e.ProtectionElectricity?
    ensures WellFormedWords(Identifier(e).words) && JoinUpper(Identifier(e).words) == ToStr(e)
  {
    if e == ProtectionRadioactivity {
      RowProtectionRadioactivity();
    } else if e == ProtectionExplosion {
      RowProtectionExplosion();
    } else if e == ProtectionMelee {
      RowProtectionMelee();
    } else {
      RowProtectionElectricity();
    }
  }

  lemma TableRowsFromTeleportitis(e: GameEffectEnum)
    requires e.Teleportitis? || e.StainlessArmour? || e.GlobalGore? || e.EditWandsEverywhere?
    ensures WellFormedWords(Identifier(e).words) && JoinUpper(Identifier(e).words) == ToStr(e)
  {
    if e == Teleportitis {
      RowTeleportitis();
    } else if e == StainlessArmour {
      RowStainlessArmour();
    } else if e == GlobalGore {
      RowGlobalGore();
    } else {
      RowEditWandsEverywhere();
    }
  }

  lemma TableRowsFromExplodingCorpseShots(e: GameEffectEnum)
    requires e.ExplodingCorpseShots? || e.ExplodingCorpse? || e.ExtraMoney? || e.ExtraMoneyTrickKill?
    ensures WellFormedWords(Identifier(e).words) && JoinUpper(Identifier(e).words) == ToStr(e)
  {
    if e == ExplodingCorpseShots {
      RowExplodingCorpseShots();
    } else if e == ExplodingCorpse {
      RowExplodingCorpse();
    } else if e == ExtraMoney {
      RowExtraMoney();
    } else {
      RowExtraMoneyTrickKill();
    }
  }

  lemma TableRowsFromHoverBoost(e: GameEffectEnum)
    requires e.HoverBoost? || e.ProjectileHoming? || e.AbilityActionsMaterialized? || e.NoDamageFlash?
    ensures WellFormedWords(Identifier(e).words) && JoinUpper(Identifier(e).words) == ToStr(e)
  {
    if e == HoverBoost {
      RowHoverBoost();
    } else if e == ProjectileHoming {
      RowProjectileHoming();
    } else if e == AbilityActionsMaterialized {
      RowAbilityActionsMaterialized();
    } else {
      RowNoDamageFlash();
    }
  }

  lemma TableRowsFromNoSlimeSlowdown(e: GameEffectEnum)
    requires e.NoSlimeSlowdown? || e.MovementFaster2X? || e.NoWandEditing? || e.LowHpDamageBoost?
    ensures WellFormedWords(Identifier(e).words) && JoinUpper(Identifier(e).words) == ToStr(e)
  {
    if e == NoSlimeSlowdown {
      RowNoSlimeSlowdown();
    } else if e == MovementFaster2X {
      RowMovementFaster2X();
    } else if e == NoWandEditing {
      RowNoWandEditing();
    } else {
      RowLowHpDamageBoost();
    }
  }

  lemma TableRowsFromFasterLevitation(e: GameEffectEnum)
    requires e.FasterLevitation? || e.StunProtectionElectricity? || e.StunProtectionFreeze? || e.IronStomach?
    ensures WellFormedWords(Identifier(e).words) && JoinUpper(Identifier(e).words) == ToStr(e)
  {
    if e == FasterLevitation {
      RowFasterLevitation();
    } else if e == StunProtectionElectricity {
      RowStunProtectionElectricity();
    } else if e == StunProtectionFreeze {
      RowStunProtectionFreeze();
    } else {
      RowIronStomach();
    }
  }

  lemma TableRowsFromProtectionAll(e: GameEffectEnum)
    requires e.ProtectionAll? || e.Invisibility? || e.RemoveFogOfWar? || e.ManaRegeneration?
    ensures WellFormedWords(Identifier(e).words) && JoinUpper(Identifier(e).words) == ToStr(e)
  {
    if e == ProtectionAll {
      RowProtectionAll();
    } else if e == Invisibility {
      RowInvisibility();
    } else if e == RemoveFogOfWar {
      RowRemoveFogOfWar();
    } else {
      RowManaRegeneration();
    }
  }

  lemma TableRowsFromProtectionDuringTeleport(e: GameEffectEnum)
    requires e.ProtectionDuringTeleport? || e.ProtectionPolymorph? || e.ProtectionFreeze? || e.FrozenSpeedUp?
    ensures WellFormedWords(Identifier(e).words) && JoinUpper(Identifier(e).words) == ToStr(e)
  {
    if e == ProtectionDuringTeleport {
      RowProtectionDuringTeleport();
    } else if e == ProtectionPolymorph {
      RowProtectionPolymorph();
    } else if e == ProtectionFreeze {
      RowProtectionFreeze();
    } else {
      RowFrozenSpeedUp();
    }
  }

  lemma TableRowsFromUnstableTeleportation(e: GameEffectEnum)
    requires e.UnstableTeleportation? || e.PolymorphUnstable? || e.Custom? || e.AllergyRadioactive?
    ensures WellFormedWords(Identifier(e).words) && JoinUpper(Identifier(e).words) == ToStr(e)
  {
    if e == UnstableTeleportation {
      RowUnstableTeleportation();
    } else if e == PolymorphUnstable {
      RowPolymorphUnstable();
    } else if e == GameEffectEnum.Custom {
      RowCustom();
    } else {
      RowAllergyRadioactive();
    }
  }

  lemma TableRowsFromRainbowFarts(e: GameEffectEnum)
    requires e.RainbowFarts? || e.Weakness? || e.ProtectionFoodPoisoning? || e.NoHeal?
    ensures WellFormedWords(Identifier(e).words) && JoinUpper(Identifier(e).words) == ToStr(e)
  {
    if e == RainbowFarts {
      RowRainbowFarts();
    } else if e == Weakness {
      RowWeakness();
    } else if e == ProtectionFoodPoisoning {
      RowProtectionFoodPoisoning();
    } else {
      RowNoHeal();
    }
  }

  lemma TableRowsFromProtectionEdges(e: GameEffectEnum)
    requires e.ProtectionEdges? || e.ProtectionProjectile? || e.PolymorphCessation? || e.Last?
    ensures WellFormedWords(Identifier(e).words) && JoinUpper(Identifier(e).words) == ToStr(e)
  {
    if e == ProtectionEdges {
      RowProtectionEdges();
    } else if e == ProtectionProjectile {
      RowProtectionProjectile();
    } else if e == PolymorphCessation {
      RowPolymorphCessation();
    } else {
      RowLast();
    }
  }

  /** Each identifier's words are well formed and shout to the variant's static string. */
  lemma TableRow(e: GameEffectEnum)
    ensures WellFormedWords(Identifier(e).words)
    ensures JoinUpper(Identifier(e).words) == ToStr(e)
  {
    if e.None? || e.Electrocution? || e.Frozen? || e.OnFire? {
      TableRowsFromNone(e);
    } else if e.Poison? || e.Berserk? || e.Charm? || e.Polymorph? {
      TableRowsFromPoison(e);
    } else if e.PolymorphRandom? || e.Blindness? || e.Telepathy? || e.Teleportation? {
      TableRowsFromPolymorphRandom(e);
    } else if e.Regeneration? || e.Levitation? || e.MovementSlower? || e.Farts? {
      TableRowsFromRegeneration(e);
    } else if e.Drunk? || e.BreathUnderwater? || e.Radioactive? || e.Wet? {
      TableRowsFromDrunk(e);
    } else if e.Oiled? || e.Bloody? || e.Slimy? || e.CriticalHitBoost? {
      TableRowsFromOiled(e);
    } else if e.Confusion? || e.MeleeCounter? || e.WormAttractor? || e.WormDetractor? {
      TableRowsFromConfusion(e);
    } else if e.FoodPoisoning? || e.FriendThundermage? || e.FriendFiremage? || e.InternalFire? {
      TableRowsFromFoodPoisoning(e);
    } else if e.InternalIce? || e.Jarate? || e.Knockback? || e.KnockbackImmunity? {
      TableRowsFromInternalIce(e);
    } else if e.MovementSlower2X? || e.MovementFaster? || e.StainsDropFaster? || e.SavingGrace? {
      TableRowsFromMovementSlower2X(e);
    } else if e.DamageMultiplier? || e.HealingBlood? || e.Respawn? || e.ProtectionFire? {
      TableRowsFromDamageMultiplier(e);
    } else if e.ProtectionRadioactivity? || e.ProtectionExplosion? || e.ProtectionMelee? || e.ProtectionElectricity? {
      TableRowsFromProtectionRadioactivity(e);
    } else if e.Teleportitis? || e.StainlessArmour? || e.GlobalGore? || e.EditWandsEverywhere? {
      TableRowsFromTeleportitis(e);
    } else if e.ExplodingCorpseShots? || e.ExplodingCorpse? || e.ExtraMoney? || e.ExtraMoneyTrickKill? {
      TableRowsFromExplodingCorpseShots(e);
    } else if e.HoverBoost? || e.ProjectileHoming? || e.AbilityActionsMaterialized? || e.NoDamageFlash? {
      TableRowsFromHoverBoost(e);
    } else if e.NoSlimeSlowdown? || e.MovementFaster2X? || e.NoWandEditing? || e.LowHpDamageBoost? {
      TableRowsFromNoSlimeSlowdown(e);
    } else if e.FasterLevitation? || e.StunProtectionElectricity? || e.StunProtectionFreeze? || e.IronStomach? {
      TableRowsFromFasterLevitation(e);
    } else if e.ProtectionAll? || e.Invisibility? || e.RemoveFogOfWar? || e.ManaRegeneration? {
      TableRowsFromProtectionAll(e);
    } else if e.ProtectionDuringTeleport? || e.ProtectionPolymorph? || e.ProtectionFreeze? || e.FrozenSpeedUp? {
      TableRowsFromProtectionDuringTeleport(e);
    } else if e.UnstableTeleportation? || e.PolymorphUnstable? || e.Custom? || e.AllergyRadioactive? {
      TableRowsFromUnstableTeleportation(e);
    } else if e.RainbowFarts? || e.Weakness? || e.ProtectionFoodPoisoning? || e.NoHeal? {
      TableRowsFromRainbowFarts(e);
    } else {
      TableRowsFromProtectionEdges(e);
    }
  }

  /** The static string of every variant is the SCREAMING_SNAKE_CASE of its Rust name. */
  lemma ToStrIsScreamingSnake(e: GameEffectEnum)
    ensures ToStr(e) == ScreamingSnake(RustName(e))
  {
    TableRow(e);
    WordsOfCamel(Identifier(e).leadingUnderscore, Identifier(e).words);
  }
}
