/** Daggerheart dice and damage rules: the Hope/Fear duality roll, trait checks,
    threshold damage, the six traits and the static class and ancestry content. */
module Mechanics {
  import opened Common

  /** Faces of each duality die and of the advantage/disadvantage die. */
  const DieFaces := 12
  const BonusFaces := 6
  /** Trait values are re-clamped into [-TraitBound, TraitBound] after ancestry bonuses. */
  const TraitBound := 3
  /** A legal starting distribution sums to exactly this. */
  const TraitTotal := 3
  /** The difficulty used when a caller does not give one. */
  const DefaultDifficulty := 12

  datatype ActionResult = CriticalSuccess | SuccessWithHope | SuccessWithFear | Failure

  /** One duality roll: the two d12s, the signed modifier, and what is derived from them. */
  datatype DiceRoll = DiceRoll(hopeDie: int, fearDie: int, bonus: int, total: int, resultType: ActionResult)

  /** The random draws a roll consumes, passed in rather than drawn:
      two d12s and one d6 (used only under advantage or disadvantage). */
  datatype Dice = Dice(hope: int, fear: int, d6: int)

  predicate FairDice(d: Dice) {
    1 <= d.hope <= DieFaces && 1 <= d.fear <= DieFaces && 1 <= d.d6 <= BonusFaces
  }

  /** The outcome class of a roll depends only on comparing the two dice. */
  function Classify(hope: int, fear: int): (r: ActionResult)
    ensures r == CriticalSuccess <==> hope == fear
    ensures r == SuccessWithHope <==> hope > fear
    ensures r == SuccessWithFear <==> fear > hope
    ensures r != Failure
  {
    if hope == fear then CriticalSuccess
    else if hope > fear then SuccessWithHope
    else if fear > hope then SuccessWithFear
    else Failure
  }

  /** The `DiceRoll` constructor: the total and the class are derived, never given. */
  function NewDiceRoll(hope: int, fear: int, bonus: int): (r: DiceRoll)
    ensures r.hopeDie == hope && r.fearDie == fear && r.bonus == bonus
    ensures r.total - r.bonus == hope + fear
    ensures r.resultType == Classify(hope, fear)
  {
    DiceRoll(hope, fear, bonus, hope + fear + bonus, Classify(hope, fear))
  }

  /** The modifier: +d6 under advantage, -d6 under disadvantage alone, else 0. */
  function Modifier(advantage: bool, disadvantage: bool, d6: int): int
  {
    if advantage then d6 else if disadvantage then -d6 else 0
  }

  function RollDuality(advantage: bool, disadvantage: bool, dice: Dice): (r: DiceRoll)
    requires FairDice(dice)
    ensures 1 <= r.hopeDie <= DieFaces && 1 <= r.fearDie <= DieFaces
    ensures r.hopeDie == dice.hope && r.fearDie == dice.fear
    ensures advantage ==> 1 <= r.bonus <= BonusFaces
    ensures !advantage && disadvantage ==> -BonusFaces <= r.bonus <= -1
    ensures !advantage && !disadvantage ==> r.bonus == 0
    ensures r.total == r.hopeDie + r.fearDie + r.bonus
    ensures -4 <= r.total <= 30
    ensures r.resultType != Failure
  {
    NewDiceRoll(dice.hope, dice.fear, Modifier(advantage, disadvantage, dice.d6))
  }

  datatype TraitCheck = TraitCheck(roll: DiceRoll, success: bool)

  /** A trait check: numeric success is decided by the total alone. */
  function MakeTraitRoll(traitValue: int, difficulty: int, advantage: bool, disadvantage: bool, dice: Dice): (r: TraitCheck)
    requires FairDice(dice)
    ensures r.roll == RollDuality(advantage, disadvantage, dice)
    ensures r.success <==> r.roll.total + traitValue >= difficulty
  {
    var roll := RollDuality(advantage, disadvantage, dice);
    TraitCheck(roll, roll.total + traitValue >= difficulty)
  }

  /** Outcome class and numeric success are independent: a Fear roll can pass or
      fail, and so can a Hope roll. */
  lemma OutcomeIndependentOfSuccess()
    ensures var c := MakeTraitRoll(0, DefaultDifficulty, false, false, Dice(3, 10, 1));
            c.roll.resultType == SuccessWithFear && c.success
    ensures var c := MakeTraitRoll(0, DefaultDifficulty, false, false, Dice(2, 5, 1));
            c.roll.resultType == SuccessWithFear && !c.success
    ensures var c := MakeTraitRoll(2, DefaultDifficulty, false, false, Dice(4, 3, 1));
            c.roll.resultType == SuccessWithHope && !c.success
    ensures var c := MakeTraitRoll(-3, DefaultDifficulty, false, true, Dice(7, 7, 1));
            c.roll.resultType == CriticalSuccess && !c.success
  {
  }

  /** For any fair dice the check is a threshold on the difficulty: whatever passes
      still passes at a lower difficulty, the difficulty equal to the total with the
      trait is the highest that passes, and a difficulty outside the reachable totals
      always passes or always fails. */
  lemma TraitRollThreshold(traitValue: int, difficulty: int, advantage: bool, disadvantage: bool, dice: Dice)
    requires FairDice(dice)
    ensures var reached := RollDuality(advantage, disadvantage, dice).total + traitValue;
            && MakeTraitRoll(traitValue, reached, advantage, disadvantage, dice).success
            && !MakeTraitRoll(traitValue, reached + 1, advantage, disadvantage, dice).success
    ensures MakeTraitRoll(traitValue, difficulty, advantage, disadvantage, dice).success ==>
            forall lower :: lower <= difficulty ==> MakeTraitRoll(traitValue, lower, advantage, disadvantage, dice).success
    ensures difficulty <= traitValue + 2 - BonusFaces ==> MakeTraitRoll(traitValue, difficulty, advantage, disadvantage, dice).success
    ensures difficulty > traitValue + 2 * DieFaces + BonusFaces ==>
            !MakeTraitRoll(traitValue, difficulty, advantage, disadvantage, dice).success
  {
  }

  /** Damage of an attack from a base roll: doubled on a critical, +2 with Hope,
      unchanged with Fear, nothing on a failure. */
  function CalculateDamage(baseDamage: int, level: ActionResult): (r: int)
    ensures level == CriticalSuccess ==> r == 2 * baseDamage
    ensures level == SuccessWithHope ==> r == baseDamage + 2
    ensures level == SuccessWithFear ==> r == baseDamage
    ensures level == Failure ==> r == 0
  {
    match level
    case CriticalSuccess => baseDamage * 2
    case SuccessWithHope => baseDamage + 2
    case SuccessWithFear => baseDamage
    case Failure => 0
  }

  /** With a 2d6 base, a better outcome never deals less damage. */
  lemma DamageRanksOutcomes(baseDamage: int)
    requires 2 <= baseDamage <= 12
    ensures CalculateDamage(baseDamage, CriticalSuccess) >= CalculateDamage(baseDamage, SuccessWithHope)
    ensures CalculateDamage(baseDamage, SuccessWithHope) > CalculateDamage(baseDamage, SuccessWithFear)
    ensures CalculateDamage(baseDamage, SuccessWithFear) > CalculateDamage(baseDamage, Failure)
  {
  }

  // ---------------------------------------------------------------------------
  // Threshold damage

  function Indicator(b: bool): nat { if b then 1 else 0 }

  /** Hit points lost: 3, 2, 1 or 0 by comparing the damage with 3t, 2t and t. */
  function HitsLost(damage: int, threshold: int): (loss: nat)
    ensures loss <= 3
    ensures threshold >= 0 ==>
      loss == Indicator(damage >= threshold) + Indicator(damage >= 2 * threshold) + Indicator(damage >= 3 * threshold)
    ensures loss == 0 <==> damage < 3 * threshold && damage < 2 * threshold && damage < threshold
    ensures loss == 3 <==> damage >= 3 * threshold
  {
    if damage >= threshold * 3 then 3
    else if damage >= threshold * 2 then 2
    else if damage >= threshold then 1
    else 0
  }

  datatype DamageOutcome = DamageOutcome(newHp: int, hitsTaken: nat)

  function ApplyDamage(hp: int, damage: int, threshold: int): (r: DamageOutcome)
    ensures r.hitsTaken == HitsLost(damage, threshold)
    ensures r.newHp >= 0
    ensures r.newHp == Max(0, hp - r.hitsTaken)
    ensures hp >= 0 ==> r.newHp <= hp
  {
    var loss := HitsLost(damage, threshold);
    DamageOutcome(Max(0, hp - loss), loss)
  }

  /** More damage never costs fewer hit points, whatever the threshold. */
  lemma HitsLostMonotone(d1: int, d2: int, threshold: int)
    requires d1 <= d2
    ensures HitsLost(d1, threshold) <= HitsLost(d2, threshold)
  {
  }

  /** The worked examples of the damage rule with threshold 2 and 6 hit points. */
  lemma ApplyDamageExamples()
    ensures ApplyDamage(6, 1, 2) == DamageOutcome(6, 0)
    ensures ApplyDamage(6, 2, 2) == DamageOutcome(5, 1)
    ensures ApplyDamage(6, 4, 2) == DamageOutcome(4, 2)
    ensures ApplyDamage(6, 6, 2) == DamageOutcome(3, 3)
    ensures ApplyDamage(2, 10, 2) == DamageOutcome(0, 3)
  {
  }

  // ---------------------------------------------------------------------------
  // Traits

  datatype TraitName = Agility | Strength | Finesse | Instinct | Presence | Knowledge

  datatype Traits = Traits(agility: int, strength: int, finesse: int, instinct: int, presence: int, knowledge: int)
  {
    function Get(n: TraitName): int {
      match n
      case Agility => agility
      case Strength => strength
      case Finesse => finesse
      case Instinct => instinct
      case Presence => presence
      case Knowledge => knowledge
    }

    function With(n: TraitName, v: int): (t: Traits)
      ensures t.Get(n) == v
      ensures forall m :: m != n ==> t.Get(m) == Get(m)
    {
      match n
      case Agility => this.(agility := v)
      case Strength => this.(strength := v)
      case Finesse => this.(finesse := v)
      case Instinct => this.(instinct := v)
      case Presence => this.(presence := v)
      case Knowledge => this.(knowledge := v)
    }

    function Sum(): int {
      agility + strength + finesse + instinct + presence + knowledge
    }
  }

  const ZeroTraits := Traits(0, 0, 0, 0, 0, 0)

  /** The attribute name of each trait. */
  function TraitKey(n: TraitName): (k: string)
    ensures IsLower(k) && |k| > 0
  {
    match n
    case Agility => "agility"
    case Strength => "strength"
    case Finesse => "finesse"
    case Instinct => "instinct"
    case Presence => "presence"
    case Knowledge => "knowledge"
  }

  /** The trait a name refers to, ignoring case. */
  function TraitByName(name: string): (r: Option<TraitName>)
    ensures forall n :: r == Some(n) <==> Lower(name) == TraitKey(n)
  {
    var k := Lower(name);
    if k == "agility" then Some(Agility)
    else if k == "strength" then Some(Strength)
    else if k == "finesse" then Some(Finesse)
    else if k == "instinct" then Some(Instinct)
    else if k == "presence" then Some(Presence)
    else if k == "knowledge" then Some(Knowledge)
    else None
  }

  /** `CharacterTrait.get_trait_value`: case-insensitive, 0 for any other name. */
  function GetTraitValue(t: Traits, name: string): (v: int)
    ensures forall n :: Lower(name) == TraitKey(n) ==> v == t.Get(n)
    ensures (forall n :: Lower(name) != TraitKey(n)) ==> v == 0
  {
    match TraitByName(name)
    case Some(n) => t.Get(n)
    case None => 0
  }

  /** Looking a trait up by any capitalisation of its key finds that trait. */
  lemma TraitKeyRoundTrip(n: TraitName, name: string)
    requires Lower(name) == TraitKey(n)
    ensures TraitByName(name) == Some(n)
    ensures forall t: Traits :: GetTraitValue(t, name) == t.Get(n)
  {
  }

  /** `validate_character_traits`: the sum is exactly 3; no per-trait range check. */
  function ValidateTraits(t: Traits): (ok: bool)
    ensures ok <==> t.agility + t.strength + t.finesse + t.instinct + t.presence + t.knowledge == TraitTotal
  {
    t.Sum() == TraitTotal
  }

  lemma ValidateTraitsExamples()
    ensures ValidateTraits(Traits(1, 2, 0, 1, 0, -1))
    ensures !ValidateTraits(Traits(1, 1, 1, 1, 1, 1))
    ensures ValidateTraits(Traits(10, -7, 0, 0, 0, 0))
  {
  }

  function Clamp(v: int): (r: int)
    ensures -TraitBound <= r <= TraitBound
    ensures -TraitBound <= v <= TraitBound ==> r == v
  {
    Min(TraitBound, Max(-TraitBound, v))
  }

  // ---------------------------------------------------------------------------
  // Static content. Each table is a fixed set of entries; an entry is named by an
  // id and looked up by its lower-case key.

  datatype CharacterClass = CharacterClass(
    name: string, nameRu: string,
    evasionBase: int, hitPointsBase: int, damageThreshold: int,
    domains: seq<string>, startingEquipment: seq<string>, specialAbilities: seq<string>)

  datatype Ancestry = Ancestry(
    name: string, nameRu: string,
    traitBonuses: seq<(TraitName, int)>, specialFeatures: seq<string>)

  datatype ClassId = Guardian | Ranger | Rogue | Seraph | Sorcerer | Warrior

  datatype AncestryId = Human | Elf | Dwarf | Orc

  function ClassKey(id: ClassId): string {
    match id
    case Guardian => "guardian"
    case Ranger => "ranger"
    case Rogue => "rogue"
    case Seraph => "seraph"
    case Sorcerer => "sorcerer"
    case Warrior => "warrior"
  }

  function ClassInfo(id: ClassId): CharacterClass {
    match id
    case Guardian => CharacterClass("Guardian", "Страж", 12, 6, 3,
      ["Valor", "Blade"], ["Shield", "Sword"], ["Armor Mastery", "Guardian's Resolve"])
    case Ranger => CharacterClass("Ranger", "Следопыт", 14, 5, 2,
      ["Bow", "Wild"], ["Bow", "Quiver"], ["Hunter's Mark", "Wild Sense"])
    case Rogue => CharacterClass("Rogue", "Плут", 15, 4, 2,
      ["Blade", "Midnight"], ["Dagger", "Thieves' Tools"], ["Sneak Attack", "Quick Reflexes"])
    case Seraph => CharacterClass("Seraph", "Серафим", 11, 5, 2,
      ["Grace", "Splendor"], ["Holy Symbol", "Healing Kit"], ["Divine Magic", "Healing Touch"])
    case Sorcerer => CharacterClass("Sorcerer", "Чародей", 10, 4, 1,
      ["Arcana", "Elemental"], ["Spellbook", "Focus Crystal"], ["Volatile Magic", "Arcane Sense"])
    case Warrior => CharacterClass("Warrior", "Воин", 13, 6, 3,
      ["Blade", "Bone"], ["Weapon", "Armor"], ["Battle Fury", "Weapon Mastery"])
  }

  function AncestryKey(id: AncestryId): string {
    match id
    case Human => "human"
    case Elf => "elf"
    case Dwarf => "dwarf"
    case Orc => "orc"
  }

  function AncestryInfo(id: AncestryId): Ancestry {
    match id
    case Human => Ancestry("Human", "Человек", [(Presence, 1)], ["Versatility", "Determination"])
    case Elf => Ancestry("Elf", "Эльф", [(Finesse, 1), (Knowledge, 1)], ["Keen Senses", "Magic Affinity"])
    case Dwarf => Ancestry("Dwarf", "Дворф", [(Strength, 1), (Instinct, 1)], ["Stone Sense", "Crafting Expertise"])
    case Orc => Ancestry("Orc", "Орк", [(Strength, 2)], ["Fierce", "Intimidating Presence"])
  }

  /** The class table entry stored under a key, if any. */
  function ClassByKey(key: string): (r: Option<ClassId>)
    ensures forall id :: r == Some(id) <==> key == ClassKey(id)
  {
    if key == "guardian" then Some(Guardian)
    else if key == "ranger" then Some(Ranger)
    else if key == "rogue" then Some(Rogue)
    else if key == "seraph" then Some(Seraph)
    else if key == "sorcerer" then Some(Sorcerer)
    else if key == "warrior" then Some(Warrior)
    else None
  }

  function AncestryByKey(key: string): (r: Option<AncestryId>)
    ensures forall id :: r == Some(id) <==> key == AncestryKey(id)
  {
    if key == "human" then Some(Human)
    else if key == "elf" then Some(Elf)
    else if key == "dwarf" then Some(Dwarf)
    else if key == "orc" then Some(Orc)
    else None
  }

  /** `get_class_by_id`: case-insensitive; `None` for an unknown id. */
  function GetClassById(classId: string): (r: Option<ClassId>)
    ensures forall id :: r == Some(id) <==> Lower(classId) == ClassKey(id)
  {
    ClassByKey(Lower(classId))
  }

  /** `get_ancestry_by_id`: case-insensitive; `None` for an unknown id. */
  function GetAncestryById(ancestryId: string): (r: Option<AncestryId>)
    ensures forall id :: r == Some(id) <==> Lower(ancestryId) == AncestryKey(id)
  {
    AncestryByKey(Lower(ancestryId))
  }

  /** Each entry's display name lower-cases to its key, its threshold and hit
      points are positive, and an ancestry never lists a trait twice. */
  lemma ClassEntryWellFormed(id: ClassId)
    ensures Lower(ClassInfo(id).name) == ClassKey(id)
    ensures ClassInfo(id).damageThreshold >= 1 && ClassInfo(id).hitPointsBase >= 1
  {
    match id
    case Guardian => assert Lower("Guardian") == "guardian";
    case Ranger => assert Lower("Ranger") == "ranger";
    case Rogue => assert Lower("Rogue") == "rogue";
    case Seraph => assert Lower("Seraph") == "seraph";
    case Sorcerer => assert Lower("Sorcerer") == "sorcerer";
    case Warrior => assert Lower("Warrior") == "warrior";
  }

  predicate DistinctBonuses(b: seq<(TraitName, int)>) {
    forall i, j :: 0 <= i < j < |b| ==> b[i].0 != b[j].0
  }

  lemma AncestryEntryWellFormed(id: AncestryId)
    ensures Lower(AncestryInfo(id).name) == AncestryKey(id)
    ensures DistinctBonuses(AncestryInfo(id).traitBonuses)
  {
    match id
    case Human => assert Lower("Human") == "human";
    case Elf => assert Lower("Elf") == "elf";
    case Dwarf => assert Lower("Dwarf") == "dwarf";
    case Orc => assert Lower("Orc") == "orc";
  }

  /** Every class is found again under its own display name, in any case. */
  lemma ClassByOwnName(id: ClassId)
    ensures GetClassById(ClassInfo(id).name) == Some(id)
    ensures GetClassById(ClassKey(id)) == Some(id)
  {
    ClassEntryWellFormed(id);
    LowerOfLower(ClassInfo(id).name);
  }

  lemma AncestryByOwnName(id: AncestryId)
    ensures GetAncestryById(AncestryInfo(id).name) == Some(id)
    ensures GetAncestryById(AncestryKey(id)) == Some(id)
  {
    AncestryEntryWellFormed(id);
    LowerOfLower(AncestryInfo(id).name);
  }
}
