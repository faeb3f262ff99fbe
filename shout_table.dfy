/**
 * Facts about literal words and literal effect strings that the effect-name
 * table rests on: each camel-case word of a variant name is capitalised and
 * upper-cases to the matching segment, and each variant's words joined by
 * the SCREAMING_SNAKE_CASE rule give its static string.  Every lemma here
 * mentions literals only, which keeps each proof obligation small.
 */
module ShoutTable {
  import opened Heck

  lemma WordNone()
    ensures Capitalised("None") && UpperAll("None") == "NONE"
  {
    assert UpperAll("None") == "NONE";
  }

  lemma WordElectrocution()
    ensures Capitalised("Electrocution") && UpperAll("Electrocution") == "ELECTROCUTION"
  {
    assert UpperAll("Electrocution") == "ELECTROCUTION";
  }

  lemma WordFrozen()
    ensures Capitalised("Frozen") && UpperAll("Frozen") == "FROZEN"
  {
    assert UpperAll("Frozen") == "FROZEN";
  }

  lemma WordOn()
    ensures Capitalised("On") && UpperAll("On") == "ON"
  {
    assert UpperAll("On") == "ON";
  }

  lemma WordFire()
    ensures Capitalised("Fire") && UpperAll("Fire") == "FIRE"
  {
    assert UpperAll("Fire") == "FIRE";
  }

  lemma WordPoison()
    ensures Capitalised("Poison") && UpperAll("Poison") == "POISON"
  {
    assert UpperAll("Poison") == "POISON";
  }

  lemma WordBerserk()
    ensures Capitalised("Berserk") && UpperAll("Berserk") == "BERSERK"
  {
    assert UpperAll("Berserk") == "BERSERK";
  }

  lemma WordCharm()
    ensures Capitalised("Charm") && UpperAll("Charm") == "CHARM"
  {
    assert UpperAll("Charm") == "CHARM";
  }

  lemma WordPolymorph()
    ensures Capitalised("Polymorph") && UpperAll("Polymorph") == "POLYMORPH"
  {
    assert UpperAll("Polymorph") == "POLYMORPH";
  }

  lemma WordRandom()
    ensures Capitalised("Random") && UpperAll("Random") == "RANDOM"
  {
    assert UpperAll("Random") == "RANDOM";
  }

  lemma WordBlindness()
    ensures Capitalised("Blindness") && UpperAll("Blindness") == "BLINDNESS"
  {
    assert UpperAll("Blindness") == "BLINDNESS";
  }

  lemma WordTelepathy()
    ensures Capitalised("Telepathy") && UpperAll("Telepathy") == "TELEPATHY"
  {
    assert UpperAll("Telepathy") == "TELEPATHY";
  }

  lemma WordTeleportation()
    ensures Capitalised("Teleportation") && UpperAll("Teleportation") == "TELEPORTATION"
  {
    assert UpperAll("Teleportation") == "TELEPORTATION";
  }

  lemma WordRegeneration()
    ensures Capitalised("Regeneration") && UpperAll("Regeneration") == "REGENERATION"
  {
    assert UpperAll("Regeneration") == "REGENERATION";
  }

  lemma WordLevitation()
    ensures Capitalised("Levitation") && UpperAll("Levitation") == "LEVITATION"
  {
    assert UpperAll("Levitation") == "LEVITATION";
  }

  lemma WordMovement()
    ensures Capitalised("Movement") && UpperAll("Movement") == "MOVEMENT"
  {
    assert UpperAll("Movement") == "MOVEMENT";
  }

  lemma WordSlower()
    ensures Capitalised("Slower") && UpperAll("Slower") == "SLOWER"
  {
    assert UpperAll("Slower") == "SLOWER";
  }

  lemma WordFarts()
    ensures Capitalised("Farts") && UpperAll("Farts") == "FARTS"
  {
    assert UpperAll("Farts") == "FARTS";
  }

  lemma WordDrunk()
    ensures Capitalised("Drunk") && UpperAll("Drunk") == "DRUNK"
  {
    assert UpperAll("Drunk") == "DRUNK";
  }

  lemma WordBreath()
    ensures Capitalised("Breath") && UpperAll("Breath") == "BREATH"
  {
    assert UpperAll("Breath") == "BREATH";
  }

  lemma WordUnderwater()
    ensures Capitalised("Underwater") && UpperAll("Underwater") == "UNDERWATER"
  {
    assert UpperAll("Underwater") == "UNDERWATER";
  }

  lemma WordRadioactive()
    ensures Capitalised("Radioactive") && UpperAll("Radioactive") == "RADIOACTIVE"
  {
    assert UpperAll("Radioactive") == "RADIOACTIVE";
  }

  lemma WordWet()
    ensures Capitalised("Wet") && UpperAll("Wet") == "WET"
  {
    assert UpperAll("Wet") == "WET";
  }

  lemma WordOiled()
    ensures Capitalised("Oiled") && UpperAll("Oiled") == "OILED"
  {
    assert UpperAll("Oiled") == "OILED";
  }

  lemma WordBloody()
    ensures Capitalised("Bloody") && UpperAll("Bloody") == "BLOODY"
  {
    assert UpperAll("Bloody") == "BLOODY";
  }

  lemma WordSlimy()
    ensures Capitalised("Slimy") && UpperAll("Slimy") == "SLIMY"
  {
    assert UpperAll("Slimy") == "SLIMY";
  }

  lemma WordCritical()
    ensures Capitalised("Critical") && UpperAll("Critical") == "CRITICAL"
  {
    assert UpperAll("Critical") == "CRITICAL";
  }

  lemma WordHit()
    ensures Capitalised("Hit") && UpperAll("Hit") == "HIT"
  {
    assert UpperAll("Hit") == "HIT";
  }

  lemma WordBoost()
    ensures Capitalised("Boost") && UpperAll("Boost") == "BOOST"
  {
    assert UpperAll("Boost") == "BOOST";
  }

  lemma WordConfusion()
    ensures Capitalised("Confusion") && UpperAll("Confusion") == "CONFUSION"
  {
    assert UpperAll("Confusion") == "CONFUSION";
  }

  lemma WordMelee()
    ensures Capitalised("Melee") && UpperAll("Melee") == "MELEE"
  {
    assert UpperAll("Melee") == "MELEE";
  }

  lemma WordCounter()
    ensures Capitalised("Counter") && UpperAll("Counter") == "COUNTER"
  {
    assert UpperAll("Counter") == "COUNTER";
  }

  lemma WordWorm()
    ensures Capitalised("Worm") && UpperAll("Worm") == "WORM"
  {
    assert UpperAll("Worm") == "WORM";
  }

  lemma WordAttractor()
    ensures Capitalised("Attractor") && UpperAll("Attractor") == "ATTRACTOR"
  {
    assert UpperAll("Attractor") == "ATTRACTOR";
  }

  lemma WordDetractor()
    ensures Capitalised("Detractor") && UpperAll("Detractor") == "DETRACTOR"
  {
    assert UpperAll("Detractor") == "DETRACTOR";
  }

  lemma WordFood()
    ensures Capitalised("Food") && UpperAll("Food") == "FOOD"
  {
    assert UpperAll("Food") == "FOOD";
  }

  lemma WordPoisoning()
    ensures Capitalised("Poisoning") && UpperAll("Poisoning") == "POISONING"
  {
    assert UpperAll("Poisoning") == "POISONING";
  }

  lemma WordFriend()
    ensures Capitalised("Friend") && UpperAll("Friend") == "FRIEND"
  {
    assert UpperAll("Friend") == "FRIEND";
  }

  lemma WordThundermage()
    ensures Capitalised("Thundermage") && UpperAll("Thundermage") == "THUNDERMAGE"
  {
    assert UpperAll("Thundermage") == "THUNDERMAGE";
  }

  lemma WordFiremage()
    ensures Capitalised("Firemage") && UpperAll("Firemage") == "FIREMAGE"
  {
    assert UpperAll("Firemage") == "FIREMAGE";
  }

  lemma WordInternal()
    ensures Capitalised("Internal") && UpperAll("Internal") == "INTERNAL"
  {
    assert UpperAll("Internal") == "INTERNAL";
  }

  lemma WordIce()
    ensures Capitalised("Ice") && UpperAll("Ice") == "ICE"
  {
    assert UpperAll("Ice") == "ICE";
  }

  lemma WordJarate()
    ensures Capitalised("Jarate") && UpperAll("Jarate") == "JARATE"
  {
    assert UpperAll("Jarate") == "JARATE";
  }

  lemma WordKnockback()
    ensures Capitalised("Knockback") && UpperAll("Knockback") == "KNOCKBACK"
  {
    assert UpperAll("Knockback") == "KNOCKBACK";
  }

  lemma WordImmunity()
    ensures Capitalised("Immunity") && UpperAll("Immunity") == "IMMUNITY"
  {
    assert UpperAll("Immunity") == "IMMUNITY";
  }

  lemma WordSlower2()
    ensures Capitalised("Slower2") && UpperAll("Slower2") == "SLOWER2"
  {
    assert UpperAll("Slower2") == "SLOWER2";
  }

  lemma WordX()
    ensures Capitalised("X") && UpperAll("X") == "X"
  {
    assert UpperAll("X") == "X";
  }

  lemma WordFaster()
    ensures Capitalised("Faster") && UpperAll("Faster") == "FASTER"
  {
    assert UpperAll("Faster") == "FASTER";
  }

  lemma WordStains()
    ensures Capitalised("Stains") && UpperAll("Stains") == "STAINS"
  {
    assert UpperAll("Stains") == "STAINS";
  }

  lemma WordDrop()
    ensures Capitalised("Drop") && UpperAll("Drop") == "DROP"
  {
    assert UpperAll("Drop") == "DROP";
  }

  lemma WordSaving()
    ensures Capitalised("Saving") && UpperAll("Saving") == "SAVING"
  {
    assert UpperAll("Saving") == "SAVING";
  }

  lemma WordGrace()
    ensures Capitalised("Grace") && UpperAll("Grace") == "GRACE"
  {
    assert UpperAll("Grace") == "GRACE";
  }

  lemma WordDamage()
    ensures Capitalised("Damage") && UpperAll("Damage") == "DAMAGE"
  {
    assert UpperAll("Damage") == "DAMAGE";
  }

  lemma WordMultiplier()
    ensures Capitalised("Multiplier") && UpperAll("Multiplier") == "MULTIPLIER"
  {
    assert UpperAll("Multiplier") == "MULTIPLIER";
  }

  lemma WordHealing()
    ensures Capitalised("Healing") && UpperAll("Healing") == "HEALING"
  {
    assert UpperAll("Healing") == "HEALING";
  }

  lemma WordBlood()
    ensures Capitalised("Blood") && UpperAll("Blood") == "BLOOD"
  {
    assert UpperAll("Blood") == "BLOOD";
  }

  lemma WordRespawn()
    ensures Capitalised("Respawn") && UpperAll("Respawn") == "RESPAWN"
  {
    assert UpperAll("Respawn") == "RESPAWN";
  }

  lemma WordProtection()
    ensures Capitalised("Protection") && UpperAll("Protection") == "PROTECTION"
  {
    assert UpperAll("Protection") == "PROTECTION";
  }

  lemma WordRadioactivity()
    ensures Capitalised("Radioactivity") && UpperAll("Radioactivity") == "RADIOACTIVITY"
  {
    assert UpperAll("Radioactivity") == "RADIOACTIVITY";
  }

  lemma WordExplosion()
    ensures Capitalised("Explosion") && UpperAll("Explosion") == "EXPLOSION"
  {
    assert UpperAll("Explosion") == "EXPLOSION";
  }

  lemma WordElectricity()
    ensures Capitalised("Electricity") && UpperAll("Electricity") == "ELECTRICITY"
  {
    assert UpperAll("Electricity") == "ELECTRICITY";
  }

  lemma WordTeleportitis()
    ensures Capitalised("Teleportitis") && UpperAll("Teleportitis") == "TELEPORTITIS"
  {
    assert UpperAll("Teleportitis") == "TELEPORTITIS";
  }

  lemma WordStainless()
    ensures Capitalised("Stainless") && UpperAll("Stainless") == "STAINLESS"
  {
    assert UpperAll("Stainless") == "STAINLESS";
  }

  lemma WordArmour()
    ensures Capitalised("Armour") && UpperAll("Armour") == "ARMOUR"
  {
    assert UpperAll("Armour") == "ARMOUR";
  }

  lemma WordGlobal()
    ensures Capitalised("Global") && UpperAll("Global") == "GLOBAL"
  {
    assert UpperAll("Global") == "GLOBAL";
  }

  lemma WordGore()
    ensures Capitalised("Gore") && UpperAll("Gore") == "GORE"
  {
    assert UpperAll("Gore") == "GORE";
  }

  lemma WordEdit()
    ensures Capitalised("Edit") && UpperAll("Edit") == "EDIT"
  {
    assert UpperAll("Edit") == "EDIT";
  }

  lemma WordWands()
    ensures Capitalised("Wands") && UpperAll("Wands") == "WANDS"
  {
    assert UpperAll("Wands") == "WANDS";
  }

  lemma WordEverywhere()
    ensures Capitalised("Everywhere") && UpperAll("Everywhere") == "EVERYWHERE"
  {
    assert UpperAll("Everywhere") == "EVERYWHERE";
  }

  lemma WordExploding()
    ensures Capitalised("Exploding") && UpperAll("Exploding") == "EXPLODING"
  {
    assert UpperAll("Exploding") == "EXPLODING";
  }

  lemma WordCorpse()
    ensures Capitalised("Corpse") && UpperAll("Corpse") == "CORPSE"
  {
    assert UpperAll("Corpse") == "CORPSE";
  }

  lemma WordShots()
    ensures Capitalised("Shots") && UpperAll("Shots") == "SHOTS"
  {
    assert UpperAll("Shots") == "SHOTS";
  }

  lemma WordExtra()
    ensures Capitalised("Extra") && UpperAll("Extra") == "EXTRA"
  {
    assert UpperAll("Extra") == "EXTRA";
  }

  lemma WordMoney()
    ensures Capitalised("Money") && UpperAll("Money") == "MONEY"
  {
    assert UpperAll("Money") == "MONEY";
  }

  lemma WordTrick()
    ensures Capitalised("Trick") && UpperAll("Trick") == "TRICK"
  {
    assert UpperAll("Trick") == "TRICK";
  }

  lemma WordKill()
    ensures Capitalised("Kill") && UpperAll("Kill") == "KILL"
  {
    assert UpperAll("Kill") == "KILL";
  }

  lemma WordHover()
    ensures Capitalised("Hover") && UpperAll("Hover") == "HOVER"
  {
    assert UpperAll("Hover") == "HOVER";
  }

  lemma WordProjectile()
    ensures Capitalised("Projectile") && UpperAll("Projectile") == "PROJECTILE"
  {
    assert UpperAll("Projectile") == "PROJECTILE";
  }

  lemma WordHoming()
    ensures Capitalised("Homing") && UpperAll("Homing") == "HOMING"
  {
    assert UpperAll("Homing") == "HOMING";
  }

  lemma WordAbility()
    ensures Capitalised("Ability") && UpperAll("Ability") == "ABILITY"
  {
    assert UpperAll("Ability") == "ABILITY";
  }

  lemma WordActions()
    ensures Capitalised("Actions") && UpperAll("Actions") == "ACTIONS"
  {
    assert UpperAll("Actions") == "ACTIONS";
  }

  lemma WordMaterialized()
    ensures Capitalised("Materialized") && UpperAll("Materialized") == "MATERIALIZED"
  {
    assert UpperAll("Materialized") == "MATERIALIZED";
  }

  lemma WordNo()
    ensures Capitalised("No") && UpperAll("No") == "NO"
  {
    assert UpperAll("No") == "NO";
  }

  lemma WordFlash()
    ensures Capitalised("Flash") && UpperAll("Flash") == "FLASH"
  {
    assert UpperAll("Flash") == "FLASH";
  }

  lemma WordSlime()
    ensures Capitalised("Slime") && UpperAll("Slime") == "SLIME"
  {
    assert UpperAll("Slime") == "SLIME";
  }

  lemma WordSlowdown()
    ensures Capitalised("Slowdown") && UpperAll("Slowdown") == "SLOWDOWN"
  {
    assert UpperAll("Slowdown") == "SLOWDOWN";
  }

  lemma WordFaster2()
    ensures Capitalised("Faster2") && UpperAll("Faster2") == "FASTER2"
  {
    assert UpperAll("Faster2") == "FASTER2";
  }

  lemma WordWand()
    ensures Capitalised("Wand") && UpperAll("Wand") == "WAND"
  {
    assert UpperAll("Wand") == "WAND";
  }

  lemma WordEditing()
    ensures Capitalised("Editing") && UpperAll("Editing") == "EDITING"
  {
    assert UpperAll("Editing") == "EDITING";
  }

  lemma WordLow()
    ensures Capitalised("Low") && UpperAll("Low") == "LOW"
  {
    assert UpperAll("Low") == "LOW";
  }

  lemma WordHp()
    ensures Capitalised("Hp") && UpperAll("Hp") == "HP"
  {
    assert UpperAll("Hp") == "HP";
  }

  lemma WordStun()
    ensures Capitalised("Stun") && UpperAll("Stun") == "STUN"
  {
    assert UpperAll("Stun") == "STUN";
  }

  lemma WordFreeze()
    ensures Capitalised("Freeze") && UpperAll("Freeze") == "FREEZE"
  {
    assert UpperAll("Freeze") == "FREEZE";
  }

  lemma WordIron()
    ensures Capitalised("Iron") && UpperAll("Iron") == "IRON"
  {
    assert UpperAll("Iron") == "IRON";
  }

  lemma WordStomach()
    ensures Capitalised("Stomach") && UpperAll("Stomach") == "STOMACH"
  {
    assert UpperAll("Stomach") == "STOMACH";
  }

  lemma WordAll()
    ensures Capitalised("All") && UpperAll("All") == "ALL"
  {
    assert UpperAll("All") == "ALL";
  }

  lemma WordInvisibility()
    ensures Capitalised("Invisibility") && UpperAll("Invisibility") == "INVISIBILITY"
  {
    assert UpperAll("Invisibility") == "INVISIBILITY";
  }

  lemma WordRemove()
    ensures Capitalised("Remove") && UpperAll("Remove") == "REMOVE"
  {
    assert UpperAll("Remove") == "REMOVE";
  }

  lemma WordFog()
    ensures Capitalised("Fog") && UpperAll("Fog") == "FOG"
  {
    assert UpperAll("Fog") == "FOG";
  }

  lemma WordOf()
    ensures Capitalised("Of") && UpperAll("Of") == "OF"
  {
    assert UpperAll("Of") == "OF";
  }

  lemma WordWar()
    ensures Capitalised("War") && UpperAll("War") == "WAR"
  {
    assert UpperAll("War") == "WAR";
  }

  lemma WordMana()
    ensures Capitalised("Mana") && UpperAll("Mana") == "MANA"
  {
    assert UpperAll("Mana") == "MANA";
  }

  lemma WordDuring()
    ensures Capitalised("During") && UpperAll("During") == "DURING"
  {
    assert UpperAll("During") == "DURING";
  }

  lemma WordTeleport()
    ensures Capitalised("Teleport") && UpperAll("Teleport") == "TELEPORT"
  {
    assert UpperAll("Teleport") == "TELEPORT";
  }

  lemma WordSpeed()
    ensures Capitalised("Speed") && UpperAll("Speed") == "SPEED"
  {
    assert UpperAll("Speed") == "SPEED";
  }

  lemma WordUp()
    ensures Capitalised("Up") && UpperAll("Up") == "UP"
  {
    assert UpperAll("Up") == "UP";
  }

  lemma WordUnstable()
    ensures Capitalised("Unstable") && UpperAll("Unstable") == "UNSTABLE"
  {
    assert UpperAll("Unstable") == "UNSTABLE";
  }

  lemma WordCustom()
    ensures Capitalised("Custom") && UpperAll("Custom") == "CUSTOM"
  {
    assert UpperAll("Custom") == "CUSTOM";
  }

  lemma WordAllergy()
    ensures Capitalised("Allergy") && UpperAll("Allergy") == "ALLERGY"
  {
    assert UpperAll("Allergy") == "ALLERGY";
  }

  lemma WordRainbow()
    ensures Capitalised("Rainbow") && UpperAll("Rainbow") == "RAINBOW"
  {
    assert UpperAll("Rainbow") == "RAINBOW";
  }

  lemma WordWeakness()
    ensures Capitalised("Weakness") && UpperAll("Weakness") == "WEAKNESS"
  {
    assert UpperAll("Weakness") == "WEAKNESS";
  }

  lemma WordHeal()
    ensures Capitalised("Heal") && UpperAll("Heal") == "HEAL"
  {
    assert UpperAll("Heal") == "HEAL";
  }

  lemma WordEdges()
    ensures Capitalised("Edges") && UpperAll("Edges") == "EDGES"
  {
    assert UpperAll("Edges") == "EDGES";
  }

  lemma WordCessation()
    ensures Capitalised("Cessation") && UpperAll("Cessation") == "CESSATION"
  {
    assert UpperAll("Cessation") == "CESSATION";
  }

  lemma WordLast()
    ensures Capitalised("Last") && UpperAll("Last") == "LAST"
  {
    assert UpperAll("Last") == "LAST";
  }

  lemma SegmentsOnFire()
    ensures "ON_FIRE" == "ON" + "_" + "FIRE"
  {
  }

  lemma SegmentsPolymorphRandom()
    ensures "POLYMORPH_RANDOM" == "POLYMORPH" + "_" + "RANDOM"
  {
  }

  lemma SegmentsMovementSlower()
    ensures "MOVEMENT_SLOWER" == "MOVEMENT" + "_" + "SLOWER"
  {
  }

  lemma SegmentsBreathUnderwater()
    ensures "BREATH_UNDERWATER" == "BREATH" + "_" + "UNDERWATER"
  {
  }

  lemma SegmentsCriticalHitBoost()
    ensures "CRITICAL_HIT_BOOST" == "CRITICAL" + "_" + ("HIT" + "_" + "BOOST")
  {
  }

  lemma SegmentsMeleeCounter()
    ensures "MELEE_COUNTER" == "MELEE" + "_" + "COUNTER"
  {
  }

  lemma SegmentsWormAttractor()
    ensures "WORM_ATTRACTOR" == "WORM" + "_" + "ATTRACTOR"
  {
  }

  lemma SegmentsWormDetractor()
    ensures "WORM_DETRACTOR" == "WORM" + "_" + "DETRACTOR"
  {
  }

  lemma SegmentsFoodPoisoning()
    ensures "FOOD_POISONING" == "FOOD" + "_" + "POISONING"
  {
  }

  lemma SegmentsFriendThundermage()
    ensures "FRIEND_THUNDERMAGE" == "FRIEND" + "_" + "THUNDERMAGE"
  {
  }

  lemma SegmentsFriendFiremage()
    ensures "FRIEND_FIREMAGE" == "FRIEND" + "_" + "FIREMAGE"
  {
  }

  lemma SegmentsInternalFire()
    ensures "INTERNAL_FIRE" == "INTERNAL" + "_" + "FIRE"
  {
  }

  lemma SegmentsInternalIce()
    ensures "INTERNAL_ICE" == "INTERNAL" + "_" + "ICE"
  {
  }

  lemma SegmentsKnockbackImmunity()
    ensures "KNOCKBACK_IMMUNITY" == "KNOCKBACK" + "_" + "IMMUNITY"
  {
  }

  lemma SegmentsMovementSlower2X()
    ensures "MOVEMENT_SLOWER2_X" == "MOVEMENT" + "_" + ("SLOWER2" + "_" + "X")
  {
  }

  lemma SegmentsMovementFaster()
    ensures "MOVEMENT_FASTER" == "MOVEMENT" + "_" + "FASTER"
  {
  }

  lemma SegmentsStainsDropFaster()
    ensures "STAINS_DROP_FASTER" == "STAINS" + "_" + ("DROP" + "_" + "FASTER")
  {
  }

  lemma SegmentsSavingGrace()
    ensures "SAVING_GRACE" == "SAVING" + "_" + "GRACE"
  {
  }

  lemma SegmentsDamageMultiplier()
    ensures "DAMAGE_MULTIPLIER" == "DAMAGE" + "_" + "MULTIPLIER"
  {
  }

  lemma SegmentsHealingBlood()
    ensures "HEALING_BLOOD" == "HEALING" + "_" + "BLOOD"
  {
  }

  lemma SegmentsProtectionFire()
    ensures "PROTECTION_FIRE" == "PROTECTION" + "_" + "FIRE"
  {
  }

  lemma SegmentsProtectionRadioactivity()
    ensures "PROTECTION_RADIOACTIVITY" == "PROTECTION" + "_" + "RADIOACTIVITY"
  {
  }

  lemma SegmentsProtectionExplosion()
    ensures "PROTECTION_EXPLOSION" == "PROTECTION" + "_" + "EXPLOSION"
  {
  }

  lemma SegmentsProtectionMelee()
    ensures "PROTECTION_MELEE" == "PROTECTION" + "_" + "MELEE"
  {
  }

  lemma SegmentsProtectionElectricity()
    ensures "PROTECTION_ELECTRICITY" == "PROTECTION" + "_" + "ELECTRICITY"
  {
  }

  lemma SegmentsStainlessArmour()
    ensures "STAINLESS_ARMOUR" == "STAINLESS" + "_" + "ARMOUR"
  {
  }

  lemma SegmentsGlobalGore()
    ensures "GLOBAL_GORE" == "GLOBAL" + "_" + "GORE"
  {
  }

  lemma SegmentsEditWandsEverywhere()
    ensures "EDIT_WANDS_EVERYWHERE" == "EDIT" + "_" + ("WANDS" + "_" + "EVERYWHERE")
  {
  }

  lemma SegmentsExplodingCorpseShots()
    ensures "EXPLODING_CORPSE_SHOTS" == "EXPLODING" + "_" + ("CORPSE" + "_" + "SHOTS")
  {
  }

  lemma SegmentsExplodingCorpse()
    ensures "EXPLODING_CORPSE" == "EXPLODING" + "_" + "CORPSE"
  {
  }

  lemma SegmentsExtraMoney()
    ensures "EXTRA_MONEY" == "EXTRA" + "_" + "MONEY"
  {
  }

  lemma SegmentsExtraMoneyTrickKill()
    ensures "EXTRA_MONEY_TRICK_KILL" == "EXTRA" + "_" + ("MONEY" + "_" + ("TRICK" + "_" + "KILL"))
  {
  }

  lemma SegmentsHoverBoost()
    ensures "HOVER_BOOST" == "HOVER" + "_" + "BOOST"
  {
  }

  lemma SegmentsProjectileHoming()
    ensures "PROJECTILE_HOMING" == "PROJECTILE" + "_" + "HOMING"
  {
  }

  lemma SegmentsAbilityActionsMaterialized()
    ensures "ABILITY_ACTIONS_MATERIALIZED" == "ABILITY" + "_" + ("ACTIONS" + "_" + "MATERIALIZED")
  {
  }

  lemma SegmentsNoDamageFlash()
    ensures "NO_DAMAGE_FLASH" == "NO" + "_" + ("DAMAGE" + "_" + "FLASH")
  {
  }

  lemma SegmentsNoSlimeSlowdown()
    ensures "NO_SLIME_SLOWDOWN" == "NO" + "_" + ("SLIME" + "_" + "SLOWDOWN")
  {
  }

  lemma SegmentsMovementFaster2X()
    ensures "MOVEMENT_FASTER2_X" == "MOVEMENT" + "_" + ("FASTER2" + "_" + "X")
  {
  }

  lemma SegmentsNoWandEditing()
    ensures "NO_WAND_EDITING" == "NO" + "_" + ("WAND" + "_" + "EDITING")
  {
  }

  lemma SegmentsLowHpDamageBoost()
    ensures "LOW_HP_DAMAGE_BOOST" == "LOW" + "_" + ("HP" + "_" + ("DAMAGE" + "_" + "BOOST"))
  {
  }

  lemma SegmentsFasterLevitation()
    ensures "FASTER_LEVITATION" == "FASTER" + "_" + "LEVITATION"
  {
  }

  lemma SegmentsStunProtectionElectricity()
    ensures "STUN_PROTECTION_ELECTRICITY" == "STUN" + "_" + ("PROTECTION" + "_" + "ELECTRICITY")
  {
  }

  lemma SegmentsStunProtectionFreeze()
    ensures "STUN_PROTECTION_FREEZE" == "STUN" + "_" + ("PROTECTION" + "_" + "FREEZE")
  {
  }

  lemma SegmentsIronStomach()
    ensures "IRON_STOMACH" == "IRON" + "_" + "STOMACH"
  {
  }

  lemma SegmentsProtectionAll()
    ensures "PROTECTION_ALL" == "PROTECTION" + "_" + "ALL"
  {
  }

  lemma SegmentsRemoveFogOfWar()
    ensures "REMOVE_FOG_OF_WAR" == "REMOVE" + "_" + ("FOG" + "_" + ("OF" + "_" + "WAR"))
  {
  }

  lemma SegmentsManaRegeneration()
    ensures "MANA_REGENERATION" == "MANA" + "_" + "REGENERATION"
  {
  }

  lemma SegmentsProtectionDuringTeleport()
    ensures "PROTECTION_DURING_TELEPORT" == "PROTECTION" + "_" + ("DURING" + "_" + "TELEPORT")
  {
  }

  lemma SegmentsProtectionPolymorph()
    ensures "PROTECTION_POLYMORPH" == "PROTECTION" + "_" + "POLYMORPH"
  {
  }

  lemma SegmentsProtectionFreeze()
    ensures "PROTECTION_FREEZE" == "PROTECTION" + "_" + "FREEZE"
  {
  }

  lemma SegmentsFrozenSpeedUp()
    ensures "FROZEN_SPEED_UP" == "FROZEN" + "_" + ("SPEED" + "_" + "UP")
  {
  }

  lemma SegmentsUnstableTeleportation()
    ensures "UNSTABLE_TELEPORTATION" == "UNSTABLE" + "_" + "TELEPORTATION"
  {
  }

  lemma SegmentsPolymorphUnstable()
    ensures "POLYMORPH_UNSTABLE" == "POLYMORPH" + "_" + "UNSTABLE"
  {
  }

  lemma SegmentsAllergyRadioactive()
    ensures "ALLERGY_RADIOACTIVE" == "ALLERGY" + "_" + "RADIOACTIVE"
  {
  }

  lemma SegmentsRainbowFarts()
    ensures "RAINBOW_FARTS" == "RAINBOW" + "_" + "FARTS"
  {
  }

  lemma SegmentsProtectionFoodPoisoning()
    ensures "PROTECTION_FOOD_POISONING" == "PROTECTION" + "_" + ("FOOD" + "_" + "POISONING")
  {
  }

  lemma SegmentsNoHeal()
    ensures "NO_HEAL" == "NO" + "_" + "HEAL"
  {
  }

  lemma SegmentsProtectionEdges()
    ensures "PROTECTION_EDGES" == "PROTECTION" + "_" + "EDGES"
  {
  }

  lemma SegmentsProtectionProjectile()
    ensures "PROTECTION_PROJECTILE" == "PROTECTION" + "_" + "PROJECTILE"
  {
  }

  lemma SegmentsPolymorphCessation()
    ensures "POLYMORPH_CESSATION" == "POLYMORPH" + "_" + "CESSATION"
  {
  }

  lemma ShoutNone()
    ensures WellFormedWords(["None"]) && JoinUpper(["None"]) == "NONE"
  {
    WordNone();
  }

  lemma ShoutElectrocution()
    ensures WellFormedWords(["Electrocution"]) && JoinUpper(["Electrocution"]) == "ELECTROCUTION"
  {
    WordElectrocution();
  }

  lemma ShoutFrozen()
    ensures WellFormedWords(["Frozen"]) && JoinUpper(["Frozen"]) == "FROZEN"
  {
    WordFrozen();
  }

  lemma ShoutOnFire()
    ensures WellFormedWords(["On", "Fire"]) && JoinUpper(["On", "Fire"]) == "ON_FIRE"
  {
    WordOn();
    WordFire();
    Join2("On", "Fire", "ON", "FIRE");
    SegmentsOnFire();
  }

  lemma ShoutPoison()
    ensures WellFormedWords(["Poison"]) && JoinUpper(["Poison"]) == "POISON"
  {
    WordPoison();
  }

  lemma ShoutBerserk()
    ensures WellFormedWords(["Berserk"]) && JoinUpper(["Berserk"]) == "BERSERK"
  {
    WordBerserk();
  }

  lemma ShoutCharm()
    ensures WellFormedWords(["Charm"]) && JoinUpper(["Charm"]) == "CHARM"
  {
    WordCharm();
  }

  lemma ShoutPolymorph()
    ensures WellFormedWords(["Polymorph"]) && JoinUpper(["Polymorph"]) == "POLYMORPH"
  {
    WordPolymorph();
  }

  lemma ShoutPolymorphRandom()
    ensures WellFormedWords(["Polymorph", "Random"]) && JoinUpper(["Polymorph", "Random"]) == "POLYMORPH_RANDOM"
  {
    WordPolymorph();
    WordRandom();
    Join2("Polymorph", "Random", "POLYMORPH", "RANDOM");
    SegmentsPolymorphRandom();
  }

  lemma ShoutBlindness()
    ensures WellFormedWords(["Blindness"]) && JoinUpper(["Blindness"]) == "BLINDNESS"
  {
    WordBlindness();
  }

  lemma ShoutTelepathy()
    ensures WellFormedWords(["Telepathy"]) && JoinUpper(["Telepathy"]) == "TELEPATHY"
  {
    WordTelepathy();
  }

  lemma ShoutTeleportation()
    ensures WellFormedWords(["Teleportation"]) && JoinUpper(["Teleportation"]) == "TELEPORTATION"
  {
    WordTeleportation();
  }

  lemma ShoutRegeneration()
    ensures WellFormedWords(["Regeneration"]) && JoinUpper(["Regeneration"]) == "REGENERATION"
  {
    WordRegeneration();
  }

  lemma ShoutLevitation()
    ensures WellFormedWords(["Levitation"]) && JoinUpper(["Levitation"]) == "LEVITATION"
  {
    WordLevitation();
  }

  lemma ShoutMovementSlower()
    ensures WellFormedWords(["Movement", "Slower"]) && JoinUpper(["Movement", "Slower"]) == "MOVEMENT_SLOWER"
  {
    WordMovement();
    WordSlower();
    Join2("Movement", "Slower", "MOVEMENT", "SLOWER");
    SegmentsMovementSlower();
  }

  lemma ShoutFarts()
    ensures WellFormedWords(["Farts"]) && JoinUpper(["Farts"]) == "FARTS"
  {
    WordFarts();
  }

  lemma ShoutDrunk()
    ensures WellFormedWords(["Drunk"]) && JoinUpper(["Drunk"]) == "DRUNK"
  {
    WordDrunk();
  }

  lemma ShoutBreathUnderwater()
    ensures WellFormedWords(["Breath", "Underwater"]) && JoinUpper(["Breath", "Underwater"]) == "BREATH_UNDERWATER"
  {
    WordBreath();
    WordUnderwater();
    Join2("Breath", "Underwater", "BREATH", "UNDERWATER");
    SegmentsBreathUnderwater();
  }

  lemma ShoutRadioactive()
    ensures WellFormedWords(["Radioactive"]) && JoinUpper(["Radioactive"]) == "RADIOACTIVE"
  {
    WordRadioactive();
  }

  lemma ShoutWet()
    ensures WellFormedWords(["Wet"]) && JoinUpper(["Wet"]) == "WET"
  {
    WordWet();
  }

  lemma ShoutOiled()
    ensures WellFormedWords(["Oiled"]) && JoinUpper(["Oiled"]) == "OILED"
  {
    WordOiled();
  }

  lemma ShoutBloody()
    ensures WellFormedWords(["Bloody"]) && JoinUpper(["Bloody"]) == "BLOODY"
  {
    WordBloody();
  }

  lemma ShoutSlimy()
    ensures WellFormedWords(["Slimy"]) && JoinUpper(["Slimy"]) == "SLIMY"
  {
    WordSlimy();
  }

  lemma ShoutCriticalHitBoost()
    ensures WellFormedWords(["Critical", "Hit", "Boost"]) && JoinUpper(["Critical", "Hit", "Boost"]) == "CRITICAL_HIT_BOOST"
  {
    WordCritical();
    WordHit();
    WordBoost();
    Join3("Critical", "Hit", "Boost", "CRITICAL", "HIT", "BOOST");
    SegmentsCriticalHitBoost();
  }

  lemma ShoutConfusion()
    ensures WellFormedWords(["Confusion"]) && JoinUpper(["Confusion"]) == "CONFUSION"
  {
    WordConfusion();
  }

  lemma ShoutMeleeCounter()
    ensures WellFormedWords(["Melee", "Counter"]) && JoinUpper(["Melee", "Counter"]) == "MELEE_COUNTER"
  {
    WordMelee();
    WordCounter();
    Join2("Melee", "Counter", "MELEE", "COUNTER");
    SegmentsMeleeCounter();
  }

  lemma ShoutWormAttractor()
    ensures WellFormedWords(["Worm", "Attractor"]) && JoinUpper(["Worm", "Attractor"]) == "WORM_ATTRACTOR"
  {
    WordWorm();
    WordAttractor();
    Join2("Worm", "Attractor", "WORM", "ATTRACTOR");
    SegmentsWormAttractor();
  }

  lemma ShoutWormDetractor()
    ensures WellFormedWords(["Worm", "Detractor"]) && JoinUpper(["Worm", "Detractor"]) == "WORM_DETRACTOR"
  {
    WordWorm();
    WordDetractor();
    Join2("Worm", "Detractor", "WORM", "DETRACTOR");
    SegmentsWormDetractor();
  }

  lemma ShoutFoodPoisoning()
    ensures WellFormedWords(["Food", "Poisoning"]) && JoinUpper(["Food", "Poisoning"]) == "FOOD_POISONING"
  {
    WordFood();
    WordPoisoning();
    Join2("Food", "Poisoning", "FOOD", "POISONING");
    SegmentsFoodPoisoning();
  }

  lemma ShoutFriendThundermage()
    ensures WellFormedWords(["Friend", "Thundermage"]) && JoinUpper(["Friend", "Thundermage"]) == "FRIEND_THUNDERMAGE"
  {
    WordFriend();
    WordThundermage();
    Join2("Friend", "Thundermage", "FRIEND", "THUNDERMAGE");
    SegmentsFriendThundermage();
  }

  lemma ShoutFriendFiremage()
    ensures WellFormedWords(["Friend", "Firemage"]) && JoinUpper(["Friend", "Firemage"]) == "FRIEND_FIREMAGE"
  {
    WordFriend();
    WordFiremage();
    Join2("Friend", "Firemage", "FRIEND", "FIREMAGE");
    SegmentsFriendFiremage();
  }

  lemma ShoutInternalFire()
    ensures WellFormedWords(["Internal", "Fire"]) && JoinUpper(["Internal", "Fire"]) == "INTERNAL_FIRE"
  {
    WordInternal();
    WordFire();
    Join2("Internal", "Fire", "INTERNAL", "FIRE");
    SegmentsInternalFire();
  }

  lemma ShoutInternalIce()
    ensures WellFormedWords(["Internal", "Ice"]) && JoinUpper(["Internal", "Ice"]) == "INTERNAL_ICE"
  {
    WordInternal();
    WordIce();
    Join2("Internal", "Ice", "INTERNAL", "ICE");
    SegmentsInternalIce();
  }

  lemma ShoutJarate()
    ensures WellFormedWords(["Jarate"]) && JoinUpper(["Jarate"]) == "JARATE"
  {
    WordJarate();
  }

  lemma ShoutKnockback()
    ensures WellFormedWords(["Knockback"]) && JoinUpper(["Knockback"]) == "KNOCKBACK"
  {
    WordKnockback();
  }

  lemma ShoutKnockbackImmunity()
    ensures WellFormedWords(["Knockback", "Immunity"]) && JoinUpper(["Knockback", "Immunity"]) == "KNOCKBACK_IMMUNITY"
  {
    WordKnockback();
    WordImmunity();
    Join2("Knockback", "Immunity", "KNOCKBACK", "IMMUNITY");
    SegmentsKnockbackImmunity();
  }

  lemma ShoutMovementSlower2X()
    ensures WellFormedWords(["Movement", "Slower2", "X"]) && JoinUpper(["Movement", "Slower2", "X"]) == "MOVEMENT_SLOWER2_X"
  {
    WordMovement();
    WordSlower2();
    WordX();
    Join3("Movement", "Slower2", "X", "MOVEMENT", "SLOWER2", "X");
    SegmentsMovementSlower2X();
  }

  lemma ShoutMovementFaster()
    ensures WellFormedWords(["Movement", "Faster"]) && JoinUpper(["Movement", "Faster"]) == "MOVEMENT_FASTER"
  {
    WordMovement();
    WordFaster();
    Join2("Movement", "Faster", "MOVEMENT", "FASTER");
    SegmentsMovementFaster();
  }

  lemma ShoutStainsDropFaster()
    ensures WellFormedWords(["Stains", "Drop", "Faster"]) && JoinUpper(["Stains", "Drop", "Faster"]) == "STAINS_DROP_FASTER"
  {
    WordStains();
    WordDrop();
    WordFaster();
    Join3("Stains", "Drop", "Faster", "STAINS", "DROP", "FASTER");
    SegmentsStainsDropFaster();
  }

  lemma ShoutSavingGrace()
    ensures WellFormedWords(["Saving", "Grace"]) && JoinUpper(["Saving", "Grace"]) == "SAVING_GRACE"
  {
    WordSaving();
    WordGrace();
    Join2("Saving", "Grace", "SAVING", "GRACE");
    SegmentsSavingGrace();
  }

  lemma ShoutDamageMultiplier()
    ensures WellFormedWords(["Damage", "Multiplier"]) && JoinUpper(["Damage", "Multiplier"]) == "DAMAGE_MULTIPLIER"
  {
    WordDamage();
    WordMultiplier();
    Join2("Damage", "Multiplier", "DAMAGE", "MULTIPLIER");
    SegmentsDamageMultiplier();
  }

  lemma ShoutHealingBlood()
    ensures WellFormedWords(["Healing", "Blood"]) && JoinUpper(["Healing", "Blood"]) == "HEALING_BLOOD"
  {
    WordHealing();
    WordBlood();
    Join2("Healing", "Blood", "HEALING", "BLOOD");
    SegmentsHealingBlood();
  }

  lemma ShoutRespawn()
    ensures WellFormedWords(["Respawn"]) && JoinUpper(["Respawn"]) == "RESPAWN"
  {
    WordRespawn();
  }

  lemma ShoutProtectionFire()
    ensures WellFormedWords(["Protection", "Fire"]) && JoinUpper(["Protection", "Fire"]) == "PROTECTION_FIRE"
  {
    WordProtection();
    WordFire();
    Join2("Protection", "Fire", "PROTECTION", "FIRE");
    SegmentsProtectionFire();
  }

  lemma ShoutProtectionRadioactivity()
    ensures WellFormedWords(["Protection", "Radioactivity"]) && JoinUpper(["Protection", "Radioactivity"]) == "PROTECTION_RADIOACTIVITY"
  {
    WordProtection();
    WordRadioactivity();
    Join2("Protection", "Radioactivity", "PROTECTION", "RADIOACTIVITY");
    SegmentsProtectionRadioactivity();
  }

  lemma ShoutProtectionExplosion()
    ensures WellFormedWords(["Protection", "Explosion"]) && JoinUpper(["Protection", "Explosion"]) == "PROTECTION_EXPLOSION"
  {
    WordProtection();
    WordExplosion();
    Join2("Protection", "Explosion", "PROTECTION", "EXPLOSION");
    SegmentsProtectionExplosion();
  }

  lemma ShoutProtectionMelee()
    ensures WellFormedWords(["Protection", "Melee"]) && JoinUpper(["Protection", "Melee"]) == "PROTECTION_MELEE"
  {
    WordProtection();
    WordMelee();
    Join2("Protection", "Melee", "PROTECTION", "MELEE");
    SegmentsProtectionMelee();
  }

  lemma ShoutProtectionElectricity()
    ensures WellFormedWords(["Protection", "Electricity"]) && JoinUpper(["Protection", "Electricity"]) == "PROTECTION_ELECTRICITY"
  {
    WordProtection();
    WordElectricity();
    Join2("Protection", "Electricity", "PROTECTION", "ELECTRICITY");
    SegmentsProtectionElectricity();
  }

  lemma ShoutTeleportitis()
    ensures WellFormedWords(["Teleportitis"]) && JoinUpper(["Teleportitis"]) == "TELEPORTITIS"
  {
    WordTeleportitis();
  }

  lemma ShoutStainlessArmour()
    ensures WellFormedWords(["Stainless", "Armour"]) && JoinUpper(["Stainless", "Armour"]) == "STAINLESS_ARMOUR"
  {
    WordStainless();
    WordArmour();
    Join2("Stainless", "Armour", "STAINLESS", "ARMOUR");
    SegmentsStainlessArmour();
  }

  lemma ShoutGlobalGore()
    ensures WellFormedWords(["Global", "Gore"]) && JoinUpper(["Global", "Gore"]) == "GLOBAL_GORE"
  {
    WordGlobal();
    WordGore();
    Join2("Global", "Gore", "GLOBAL", "GORE");
    SegmentsGlobalGore();
  }

  lemma ShoutEditWandsEverywhere()
    ensures WellFormedWords(["Edit", "Wands", "Everywhere"]) && JoinUpper(["Edit", "Wands", "Everywhere"]) == "EDIT_WANDS_EVERYWHERE"
  {
    WordEdit();
    WordWands();
    WordEverywhere();
    Join3("Edit", "Wands", "Everywhere", "EDIT", "WANDS", "EVERYWHERE");
    SegmentsEditWandsEverywhere();
  }

  lemma ShoutExplodingCorpseShots()
    ensures WellFormedWords(["Exploding", "Corpse", "Shots"]) && JoinUpper(["Exploding", "Corpse", "Shots"]) == "EXPLODING_CORPSE_SHOTS"
  {
    WordExploding();
    WordCorpse();
    WordShots();
    Join3("Exploding", "Corpse", "Shots", "EXPLODING", "CORPSE", "SHOTS");
    SegmentsExplodingCorpseShots();
  }

  lemma ShoutExplodingCorpse()
    ensures WellFormedWords(["Exploding", "Corpse"]) && JoinUpper(["Exploding", "Corpse"]) == "EXPLODING_CORPSE"
  {
    WordExploding();
    WordCorpse();
    Join2("Exploding", "Corpse", "EXPLODING", "CORPSE");
    SegmentsExplodingCorpse();
  }

  lemma ShoutExtraMoney()
    ensures WellFormedWords(["Extra", "Money"]) && JoinUpper(["Extra", "Money"]) == "EXTRA_MONEY"
  {
    WordExtra();
    WordMoney();
    Join2("Extra", "Money", "EXTRA", "MONEY");
    SegmentsExtraMoney();
  }

  lemma ShoutExtraMoneyTrickKill()
    ensures WellFormedWords(["Extra", "Money", "Trick", "Kill"]) && JoinUpper(["Extra", "Money", "Trick", "Kill"]) == "EXTRA_MONEY_TRICK_KILL"
  {
    WordExtra();
    WordMoney();
    WordTrick();
    WordKill();
    Join4("Extra", "Money", "Trick", "Kill", "EXTRA", "MONEY", "TRICK", "KILL");
    SegmentsExtraMoneyTrickKill();
  }

  lemma ShoutHoverBoost()
    ensures WellFormedWords(["Hover", "Boost"]) && JoinUpper(["Hover", "Boost"]) == "HOVER_BOOST"
  {
    WordHover();
    WordBoost();
    Join2("Hover", "Boost", "HOVER", "BOOST");
    SegmentsHoverBoost();
  }

  lemma ShoutProjectileHoming()
    ensures WellFormedWords(["Projectile", "Homing"]) && JoinUpper(["Projectile", "Homing"]) == "PROJECTILE_HOMING"
  {
    WordProjectile();
    WordHoming();
    Join2("Projectile", "Homing", "PROJECTILE", "HOMING");
    SegmentsProjectileHoming();
  }

  lemma ShoutAbilityActionsMaterialized()
    ensures WellFormedWords(["Ability", "Actions", "Materialized"]) && JoinUpper(["Ability", "Actions", "Materialized"]) == "ABILITY_ACTIONS_MATERIALIZED"
  {
    WordAbility();
    WordActions();
    WordMaterialized();
    Join3("Ability", "Actions", "Materialized", "ABILITY", "ACTIONS", "MATERIALIZED");
    SegmentsAbilityActionsMaterialized();
  }

  lemma ShoutNoDamageFlash()
    ensures WellFormedWords(["No", "Damage", "Flash"]) && JoinUpper(["No", "Damage", "Flash"]) == "NO_DAMAGE_FLASH"
  {
    WordNo();
    WordDamage();
    WordFlash();
    Join3("No", "Damage", "Flash", "NO", "DAMAGE", "FLASH");
    SegmentsNoDamageFlash();
  }

  lemma ShoutNoSlimeSlowdown()
    ensures WellFormedWords(["No", "Slime", "Slowdown"]) && JoinUpper(["No", "Slime", "Slowdown"]) == "NO_SLIME_SLOWDOWN"
  {
    WordNo();
    WordSlime();
    WordSlowdown();
    Join3("No", "Slime", "Slowdown", "NO", "SLIME", "SLOWDOWN");
    SegmentsNoSlimeSlowdown();
  }

  lemma ShoutMovementFaster2X()
    ensures WellFormedWords(["Movement", "Faster2", "X"]) && JoinUpper(["Movement", "Faster2", "X"]) == "MOVEMENT_FASTER2_X"
  {
    WordMovement();
    WordFaster2();
    WordX();
    Join3("Movement", "Faster2", "X", "MOVEMENT", "FASTER2", "X");
    SegmentsMovementFaster2X();
  }

  lemma ShoutNoWandEditing()
    ensures WellFormedWords(["No", "Wand", "Editing"]) && JoinUpper(["No", "Wand", "Editing"]) == "NO_WAND_EDITING"
  {
    WordNo();
    WordWand();
    WordEditing();
    Join3("No", "Wand", "Editing", "NO", "WAND", "EDITING");
    SegmentsNoWandEditing();
  }

  lemma ShoutLowHpDamageBoost()
    ensures WellFormedWords(["Low", "Hp", "Damage", "Boost"]) && JoinUpper(["Low", "Hp", "Damage", "Boost"]) == "LOW_HP_DAMAGE_BOOST"
  {
    WordLow();
    WordHp();
    WordDamage();
    WordBoost();
    Join4("Low", "Hp", "Damage", "Boost", "LOW", "HP", "DAMAGE", "BOOST");
    SegmentsLowHpDamageBoost();
  }

  lemma ShoutFasterLevitation()
    ensures WellFormedWords(["Faster", "Levitation"]) && JoinUpper(["Faster", "Levitation"]) == "FASTER_LEVITATION"
  {
    WordFaster();
    WordLevitation();
    Join2("Faster", "Levitation", "FASTER", "LEVITATION");
    SegmentsFasterLevitation();
  }

  lemma ShoutStunProtectionElectricity()
    ensures WellFormedWords(["Stun", "Protection", "Electricity"]) && JoinUpper(["Stun", "Protection", "Electricity"]) == "STUN_PROTECTION_ELECTRICITY"
  {
    WordStun();
    WordProtection();
    WordElectricity();
    Join3("Stun", "Protection", "Electricity", "STUN", "PROTECTION", "ELECTRICITY");
    SegmentsStunProtectionElectricity();
  }

  lemma ShoutStunProtectionFreeze()
    ensures WellFormedWords(["Stun", "Protection", "Freeze"]) && JoinUpper(["Stun", "Protection", "Freeze"]) == "STUN_PROTECTION_FREEZE"
  {
    WordStun();
    WordProtection();
    WordFreeze();
    Join3("Stun", "Protection", "Freeze", "STUN", "PROTECTION", "FREEZE");
    SegmentsStunProtectionFreeze();
  }

  lemma ShoutIronStomach()
    ensures WellFormedWords(["Iron", "Stomach"]) && JoinUpper(["Iron", "Stomach"]) == "IRON_STOMACH"
  {
    WordIron();
    WordStomach();
    Join2("Iron", "Stomach", "IRON", "STOMACH");
    SegmentsIronStomach();
  }

  lemma ShoutProtectionAll()
    ensures WellFormedWords(["Protection", "All"]) && JoinUpper(["Protection", "All"]) == "PROTECTION_ALL"
  {
    WordProtection();
    WordAll();
    Join2("Protection", "All", "PROTECTION", "ALL");
    SegmentsProtectionAll();
  }

  lemma ShoutInvisibility()
    ensures WellFormedWords(["Invisibility"]) && JoinUpper(["Invisibility"]) == "INVISIBILITY"
  {
    WordInvisibility();
  }

  lemma ShoutRemoveFogOfWar()
    ensures WellFormedWords(["Remove", "Fog", "Of", "War"]) && JoinUpper(["Remove", "Fog", "Of", "War"]) == "REMOVE_FOG_OF_WAR"
  {
    WordRemove();
    WordFog();
    WordOf();
    WordWar();
    Join4("Remove", "Fog", "Of", "War", "REMOVE", "FOG", "OF", "WAR");
    SegmentsRemoveFogOfWar();
  }

  lemma ShoutManaRegeneration()
    ensures WellFormedWords(["Mana", "Regeneration"]) && JoinUpper(["Mana", "Regeneration"]) == "MANA_REGENERATION"
  {
    WordMana();
    WordRegeneration();
    Join2("Mana", "Regeneration", "MANA", "REGENERATION");
    SegmentsManaRegeneration();
  }

  lemma ShoutProtectionDuringTeleport()
    ensures WellFormedWords(["Protection", "During", "Teleport"]) && JoinUpper(["Protection", "During", "Teleport"]) == "PROTECTION_DURING_TELEPORT"
  {
    WordProtection();
    WordDuring();
    WordTeleport();
    Join3("Protection", "During", "Teleport", "PROTECTION", "DURING", "TELEPORT");
    SegmentsProtectionDuringTeleport();
  }

  lemma ShoutProtectionPolymorph()
    ensures WellFormedWords(["Protection", "Polymorph"]) && JoinUpper(["Protection", "Polymorph"]) == "PROTECTION_POLYMORPH"
  {
    WordProtection();
    WordPolymorph();
    Join2("Protection", "Polymorph", "PROTECTION", "POLYMORPH");
    SegmentsProtectionPolymorph();
  }

  lemma ShoutProtectionFreeze()
    ensures WellFormedWords(["Protection", "Freeze"]) && JoinUpper(["Protection", "Freeze"]) == "PROTECTION_FREEZE"
  {
    WordProtection();
    WordFreeze();
    Join2("Protection", "Freeze", "PROTECTION", "FREEZE");
    SegmentsProtectionFreeze();
  }

  lemma ShoutFrozenSpeedUp()
    ensures WellFormedWords(["Frozen", "Speed", "Up"]) && JoinUpper(["Frozen", "Speed", "Up"]) == "FROZEN_SPEED_UP"
  {
    WordFrozen();
    WordSpeed();
    WordUp();
    Join3("Frozen", "Speed", "Up", "FROZEN", "SPEED", "UP");
    SegmentsFrozenSpeedUp();
  }

  lemma ShoutUnstableTeleportation()
    ensures WellFormedWords(["Unstable", "Teleportation"]) && JoinUpper(["Unstable", "Teleportation"]) == "UNSTABLE_TELEPORTATION"
  {
    WordUnstable();
    WordTeleportation();
    Join2("Unstable", "Teleportation", "UNSTABLE", "TELEPORTATION");
    SegmentsUnstableTeleportation();
  }

  lemma ShoutPolymorphUnstable()
    ensures WellFormedWords(["Polymorph", "Unstable"]) && JoinUpper(["Polymorph", "Unstable"]) == "POLYMORPH_UNSTABLE"
  {
    WordPolymorph();
    WordUnstable();
    Join2("Polymorph", "Unstable", "POLYMORPH", "UNSTABLE");
    SegmentsPolymorphUnstable();
  }

  lemma ShoutCustom()
    ensures WellFormedWords(["Custom"]) && JoinUpper(["Custom"]) == "CUSTOM"
  {
    WordCustom();
  }

  lemma ShoutAllergyRadioactive()
    ensures WellFormedWords(["Allergy", "Radioactive"]) && JoinUpper(["Allergy", "Radioactive"]) == "ALLERGY_RADIOACTIVE"
  {
    WordAllergy();
    WordRadioactive();
    Join2("Allergy", "Radioactive", "ALLERGY", "RADIOACTIVE");
    SegmentsAllergyRadioactive();
  }

  lemma ShoutRainbowFarts()
    ensures WellFormedWords(["Rainbow", "Farts"]) && JoinUpper(["Rainbow", "Farts"]) == "RAINBOW_FARTS"
  {
    WordRainbow();
    WordFarts();
    Join2("Rainbow", "Farts", "RAINBOW", "FARTS");
    SegmentsRainbowFarts();
  }

  lemma ShoutWeakness()
    ensures WellFormedWords(["Weakness"]) && JoinUpper(["Weakness"]) == "WEAKNESS"
  {
    WordWeakness();
  }

  lemma ShoutProtectionFoodPoisoning()
    ensures WellFormedWords(["Protection", "Food", "Poisoning"]) && JoinUpper(["Protection", "Food", "Poisoning"]) == "PROTECTION_FOOD_POISONING"
  {
    WordProtection();
    WordFood();
    WordPoisoning();
    Join3("Protection", "Food", "Poisoning", "PROTECTION", "FOOD", "POISONING");
    SegmentsProtectionFoodPoisoning();
  }

  lemma ShoutNoHeal()
    ensures WellFormedWords(["No", "Heal"]) && JoinUpper(["No", "Heal"]) == "NO_HEAL"
  {
    WordNo();
    WordHeal();
    Join2("No", "Heal", "NO", "HEAL");
    SegmentsNoHeal();
  }

  lemma ShoutProtectionEdges()
    ensures WellFormedWords(["Protection", "Edges"]) && JoinUpper(["Protection", "Edges"]) == "PROTECTION_EDGES"
  {
    WordProtection();
    WordEdges();
    Join2("Protection", "Edges", "PROTECTION", "EDGES");
    SegmentsProtectionEdges();
  }

  lemma ShoutProtectionProjectile()
    ensures WellFormedWords(["Protection", "Projectile"]) && JoinUpper(["Protection", "Projectile"]) == "PROTECTION_PROJECTILE"
  {
    WordProtection();
    WordProjectile();
    Join2("Protection", "Projectile", "PROTECTION", "PROJECTILE");
    SegmentsProtectionProjectile();
  }

  lemma ShoutPolymorphCessation()
    ensures WellFormedWords(["Polymorph", "Cessation"]) && JoinUpper(["Polymorph", "Cessation"]) == "POLYMORPH_CESSATION"
  {
    WordPolymorph();
    WordCessation();
    Join2("Polymorph", "Cessation", "POLYMORPH", "CESSATION");
    SegmentsPolymorphCessation();
  }

  lemma ShoutLast()
    ensures WellFormedWords(["Last"]) && JoinUpper(["Last"]) == "LAST"
  {
    WordLast();
  }
}
