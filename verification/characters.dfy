/** A Daggerheart player character: the record, its validated setters, Hope,
    damage and healing, the action roll, the field-level persisted form and the
    starting-character factory. Every operation is a pure function from the old
    character to the new one. */
module Characters {
  import opened Common
  import opened Mechanics

  datatype Equipment = Equipment(
    name: string, nameRu: string, kind: string,
    damage: Option<string>, armorValue: Option<int>,
    durability: Option<int>, maxDurability: Option<int>,
    description: string, specialProperties: seq<string>)

  /** The values a domain card's `mechanics` dictionary holds. */
  datatype MechanicValue = Text(text: string) | Flag(flag: bool)

  datatype DomainCard = DomainCard(
    name: string, nameRu: string, domain: string, cardType: string, level: int,
    description: string, descriptionRu: string,
    mechanics: seq<(string, MechanicValue)>, cost: Option<string>)

  datatype Progress = Progress(level: int, experience: int, hope: int, maxHope: int, fearTokens: int)

  /** A fresh character's progress: level 1, no experience, 2 of 5 Hope, no Fear tokens. */
  const DefaultProgress := Progress(1, 0, 2, 5, 0)

  datatype Character = Character(
    name: string, playerId: string,
    characterClass: Option<ClassId>, ancestry: Option<AncestryId>,
    community: string,
    traits: Traits,
    hitPoints: int, currentHp: int, evasion: int, damageThreshold: int,
    progress: Progress,
    equipment: seq<Equipment>, domainCards: seq<DomainCard>, inventory: seq<string>,
    backstory: string, motivation: string, connections: seq<string>,
    isAlive: bool, conditions: seq<string>)

  /** The character a bare constructor call produces. */
  function NewCharacter(name: string, playerId: string): (c: Character)
    ensures c.name == name && c.playerId == playerId
    ensures c.characterClass == None && c.ancestry == None
    ensures c.traits == ZeroTraits && c.progress == DefaultProgress
    ensures c.hitPoints == 6 && c.currentHp == 6 && c.evasion == 10 && c.damageThreshold == 1
    ensures c.equipment == [] && c.domainCards == [] && c.inventory == [] && c.conditions == []
    ensures Healthy(c) && c.isAlive
  {
    Character(name, playerId, None, None, "", ZeroTraits, 6, 6, 10, 1, DefaultProgress,
              [], [], [], "", "", [], true, [])
  }

  /** Hit points within [0, maximum] and Hope within [0, maximum]. */
  predicate Healthy(c: Character) {
    0 <= c.currentHp <= c.hitPoints && 0 <= c.progress.hope <= c.progress.maxHope
  }

  /** A setter's outcome: the updated character and whether it succeeded. */
  datatype Update = Update(character: Character, ok: bool)

  // ---------------------------------------------------------------------------
  // Class and ancestry

  /** Copy hit points, evasion and threshold from the held class (nothing without one). */
  function UpdateClassStats(c: Character): Character
  {
    match c.characterClass
    case None => c
    case Some(id) =>
      var k := ClassInfo(id);
      c.(hitPoints := k.hitPointsBase, currentHp := k.hitPointsBase,
         evasion := k.evasionBase, damageThreshold := k.damageThreshold)
  }

  function SetClass(c: Character, classId: string): (r: Update)
    ensures r.ok <==> exists id :: Lower(classId) == ClassKey(id)
    ensures !r.ok ==> r.character == c
    ensures forall id :: Lower(classId) == ClassKey(id) ==>
      var k := ClassInfo(id);
      r.character == c.(characterClass := Some(id), hitPoints := k.hitPointsBase,
                        currentHp := k.hitPointsBase, evasion := k.evasionBase,
                        damageThreshold := k.damageThreshold)
    ensures r.ok ==> 1 <= r.character.currentHp == r.character.hitPoints
  {
    match GetClassById(classId)
    case None => Update(c, false)
    case Some(id) =>
      ClassEntryWellFormed(id);
      Update(UpdateClassStats(c.(characterClass := Some(id))), true)
  }

  /** The first bonus an ancestry lists for trait `n`, if any. */
  function BonusFor(bonuses: seq<(TraitName, int)>, n: TraitName): (r: Option<int>)
    ensures r.None? <==> forall i :: 0 <= i < |bonuses| ==> bonuses[i].0 != n
    ensures r.Some? ==> exists i :: 0 <= i < |bonuses| && bonuses[i] == (n, r.value)
  {
    if |bonuses| == 0 then None
    else if bonuses[0].0 == n then Some(bonuses[0].1)
    else
      var r := BonusFor(bonuses[1..], n);
      assert r.Some? ==> exists i :: 0 <= i < |bonuses[1..]| && bonuses[1..][i] == (n, r.value);
      r
  }

  /** A trait value after an optional bonus: re-clamped into [-3, 3] when there is one. */
  function AfterBonus(v: int, bonus: Option<int>): int {
    match bonus
    case Some(b) => Clamp(v + b)
    case None => v
  }

  /** The bonus loop: each listed trait in turn becomes clamp(old + bonus). */
  function ApplyBonuses(t: Traits, bonuses: seq<(TraitName, int)>): Traits
    decreases |bonuses|
  {
    if |bonuses| == 0 then t
    else
      var n := bonuses[0].0;
      ApplyBonuses(t.With(n, Clamp(t.Get(n) + bonuses[0].1)), bonuses[1..])
  }

  /** With distinct bonus traits, each bonus trait is re-clamped once and the
      others are untouched. */
  lemma {:induction false} ApplyBonusesEffect(t: Traits, bonuses: seq<(TraitName, int)>)
    requires DistinctBonuses(bonuses)
    ensures forall n :: ApplyBonuses(t, bonuses).Get(n) == AfterBonus(t.Get(n), BonusFor(bonuses, n))
    decreases |bonuses|
  {
    if |bonuses| > 0 {
      var h := bonuses[0];
      var rest := bonuses[1..];
      var t1 := t.With(h.0, Clamp(t.Get(h.0) + h.1));
      assert DistinctBonuses(rest) by {
        forall i, j | 0 <= i < j < |rest| ensures rest[i].0 != rest[j].0 {
          assert rest[i] == bonuses[i + 1] && rest[j] == bonuses[j + 1];
        }
      }
      ApplyBonusesEffect(t1, rest);
      assert BonusFor(rest, h.0).None? by {
        forall i | 0 <= i < |rest| ensures rest[i].0 != h.0 {
          assert rest[i] == bonuses[i + 1];
        }
      }
      forall n
        ensures ApplyBonuses(t, bonuses).Get(n) == AfterBonus(t.Get(n), BonusFor(bonuses, n))
      {
        if n != h.0 {
          assert BonusFor(bonuses, n) == BonusFor(rest, n);
        }
      }
    }
  }

  function SetAncestry(c: Character, ancestryId: string): (r: Update)
    ensures r.ok <==> exists id :: Lower(ancestryId) == AncestryKey(id)
    ensures !r.ok ==> r.character == c
    ensures forall id :: Lower(ancestryId) == AncestryKey(id) ==>
      && r.character == c.(ancestry := Some(id), traits := r.character.traits)
      && forall n :: r.character.traits.Get(n) ==
           AfterBonus(c.traits.Get(n), BonusFor(AncestryInfo(id).traitBonuses, n))
  {
    match GetAncestryById(ancestryId)
    case None => Update(c, false)
    case Some(id) =>
      var bonuses := AncestryInfo(id).traitBonuses;
      AncestryEntryWellFormed(id);
      ApplyBonusesEffect(c.traits, bonuses);
      Update(c.(ancestry := Some(id), traits := ApplyBonuses(c.traits, bonuses)), true)
  }

  /** An orc's strength bonus is capped at +3; other traits keep their values. */
  lemma OrcStrengthIsClamped(c: Character)
    requires c.traits.strength == 2
    ensures SetAncestry(c, "Orc").character.traits.strength == 3
    ensures SetAncestry(c, "Orc").character.traits.agility == c.traits.agility
  {
    AncestryByOwnName(Orc);
    assert BonusFor(AncestryInfo(Orc).traitBonuses, Strength) == Some(2);
    assert BonusFor(AncestryInfo(Orc).traitBonuses, Agility) == None;
  }

  /** All six traits are replaced together, or none is. */
  function SetTraits(c: Character, t: Traits): (r: Update)
    ensures r.ok <==> t.Sum() == TraitTotal
    ensures r.ok ==> r.character == c.(traits := t)
    ensures !r.ok ==> r.character == c
  {
    if !ValidateTraits(t) then Update(c, false) else Update(c.(traits := t), true)
  }

  // ---------------------------------------------------------------------------
  // Hope

  function GainHope(c: Character, amount: int): (c': Character)
    ensures c' == c.(progress := c.progress.(hope := c'.progress.hope))
    ensures c.progress.hope + amount <= c.progress.maxHope ==> c'.progress.hope == c.progress.hope + amount
    ensures c.progress.hope + amount > c.progress.maxHope ==> c'.progress.hope == c.progress.maxHope
    ensures amount >= 0 && Healthy(c) ==> Healthy(c') && c'.progress.hope >= c.progress.hope
  {
    c.(progress := c.progress.(hope := Min(c.progress.maxHope, c.progress.hope + amount)))
  }

  function SpendHope(c: Character, amount: int): (r: Update)
    ensures r.ok <==> c.progress.hope >= amount
    ensures r.ok ==> r.character == c.(progress := c.progress.(hope := c.progress.hope - amount))
    ensures !r.ok ==> r.character == c
    ensures r.character.progress.hope >= 0 || r.character.progress.hope == c.progress.hope
    ensures amount >= 0 && Healthy(c) ==> Healthy(r.character)
  {
    if c.progress.hope >= amount then
      Update(c.(progress := c.progress.(hope := c.progress.hope - amount)), true)
    else Update(c, false)
  }

  // ---------------------------------------------------------------------------
  // Damage and healing

  datatype DamageReport = DamageReport(
    oldHp: int, newHp: int, damageDealt: nat, damageBlocked: int,
    isUnconscious: bool, isDying: bool)

  datatype Damaged = Damaged(character: Character, report: DamageReport)

  function TakeDamage(c: Character, damage: int): (r: Damaged)
    ensures r.character == c.(currentHp := r.report.newHp)
    ensures r.report.oldHp == c.currentHp
    ensures r.report.damageDealt == HitsLost(damage, c.damageThreshold) <= 3
    ensures r.report.newHp == Max(0, c.currentHp - r.report.damageDealt)
    ensures r.report.damageBlocked ==
      (if r.report.damageDealt < damage then damage - r.report.damageDealt else 0)
    ensures r.report.damageBlocked >= 0
    ensures r.report.isUnconscious <==> r.report.newHp == 0
    ensures r.report.isDying <==> r.report.newHp == 0 && r.report.oldHp > 0
    ensures r.character.isAlive == c.isAlive
    ensures Healthy(c) ==> Healthy(r.character)
  {
    var outcome := ApplyDamage(c.currentHp, damage, c.damageThreshold);
    var newHp := outcome.newHp;
    var dealt := outcome.hitsTaken;
    Damaged(c.(currentHp := newHp),
            DamageReport(c.currentHp, newHp, dealt,
                         if dealt < damage then damage - dealt else 0,
                         newHp == 0, newHp == 0 && c.currentHp > 0))
  }

  function Heal(c: Character, amount: int): (c': Character)
    ensures c' == c.(currentHp := c'.currentHp)
    ensures c'.currentHp <= c.hitPoints
    ensures c'.currentHp - c.currentHp <= amount
    ensures c'.currentHp == c.hitPoints || c'.currentHp == c.currentHp + amount
    ensures amount >= 0 && Healthy(c) ==> Healthy(c') && c'.currentHp >= c.currentHp
  {
    c.(currentHp := Min(c.hitPoints, c.currentHp + amount))
  }

  // ---------------------------------------------------------------------------
  // Equipment and cards

  function AddEquipment(c: Character, e: Equipment): (c': Character)
    ensures c' == c.(equipment := c'.equipment)
    ensures |c'.equipment| == |c.equipment| + 1 && c'.equipment[|c.equipment|] == e
    ensures forall i :: 0 <= i < |c.equipment| ==> c'.equipment[i] == c.equipment[i]
  {
    c.(equipment := c.equipment + [e])
  }

  function AddDomainCard(c: Character, card: DomainCard): (c': Character)
    ensures c' == c.(domainCards := c'.domainCards)
    ensures |c'.domainCards| == |c.domainCards| + 1 && c'.domainCards[|c.domainCards|] == card
    ensures forall i :: 0 <= i < |c.domainCards| ==> c'.domainCards[i] == c.domainCards[i]
  {
    c.(domainCards := c.domainCards + [card])
  }

  /** Adding gear or a card keeps a healthy character healthy, and the saved record
      of the result is the saved record of the original with the item appended. */
  lemma AddingKeepsHealthAndRecord(c: Character, e: Equipment, card: DomainCard)
    ensures Healthy(c) ==> Healthy(AddEquipment(c, e)) && Healthy(AddDomainCard(c, card))
    ensures var r := ToRecord(c); ToRecord(AddEquipment(c, e)) == r.(equipment := r.equipment + [e])
    ensures var r := ToRecord(c); ToRecord(AddDomainCard(c, card)) == r.(domainCards := r.domainCards + [card])
  {
  }

  // ---------------------------------------------------------------------------
  // Action roll

  datatype ActionReport = ActionReport(
    roll: DiceRoll, success: bool, traitUsed: string, traitValue: int,
    difficulty: int, total: int)

  datatype Rolled = Rolled(character: Character, report: ActionReport)

  function MakeActionRoll(c: Character, traitName: string, difficulty: int,
                          advantage: bool, disadvantage: bool, dice: Dice): (r: Rolled)
    requires FairDice(dice)
    ensures r.report.roll == RollDuality(advantage, disadvantage, dice)
    ensures r.report.traitValue == GetTraitValue(c.traits, traitName)
    ensures r.report.traitUsed == traitName && r.report.difficulty == difficulty
    ensures r.report.total == r.report.roll.total + r.report.traitValue
    ensures r.report.success <==> r.report.total >= difficulty
    ensures r.character == c.(progress := c.progress.(hope := r.character.progress.hope))
    ensures r.report.roll.resultType == SuccessWithHope ==>
      r.character.progress.hope == Min(c.progress.maxHope, c.progress.hope + 1)
    ensures r.report.roll.resultType != SuccessWithHope ==> r.character == c
    ensures Healthy(c) ==> Healthy(r.character)
  {
    var traitValue := GetTraitValue(c.traits, traitName);
    var check := MakeTraitRoll(traitValue, difficulty, advantage, disadvantage, dice);
    var c' := if check.roll.resultType == SuccessWithHope then GainHope(c, 1) else c;
    Rolled(c', ActionReport(check.roll, check.success, traitName, traitValue, difficulty,
                            check.roll.total + traitValue))
  }

  // ---------------------------------------------------------------------------
  // Persisted form: the record `to_json` writes and `from_json` reads, without the
  // JSON text itself.

  datatype CharacterRecord = CharacterRecord(
    name: string, playerId: string,
    classId: Option<string>, ancestryId: Option<string>,
    community: string, traits: Traits,
    hitPoints: int, currentHp: int, evasion: int, damageThreshold: int,
    progress: Progress,
    equipment: seq<Equipment>, domainCards: seq<DomainCard>, inventory: seq<string>,
    backstory: string, motivation: string, connections: seq<string>,
    isAlive: bool, conditions: seq<string>)

  function ToRecord(c: Character): (r: CharacterRecord)
    ensures r.classId.Some? <==> c.characterClass.Some?
    ensures r.ancestryId.Some? <==> c.ancestry.Some?
    ensures c.characterClass.Some? ==> r.classId.value == Lower(ClassInfo(c.characterClass.value).name)
    ensures c.ancestry.Some? ==> r.ancestryId.value == Lower(AncestryInfo(c.ancestry.value).name)
  {
    CharacterRecord(
      c.name, c.playerId,
      if c.characterClass.Some? then Some(Lower(ClassInfo(c.characterClass.value).name)) else None,
      if c.ancestry.Some? then Some(Lower(AncestryInfo(c.ancestry.value).name)) else None,
      c.community, c.traits, c.hitPoints, c.currentHp, c.evasion, c.damageThreshold,
      c.progress, c.equipment, c.domainCards, c.inventory, c.backstory, c.motivation,
      c.connections, c.isAlive, c.conditions)
  }

  /** Python's truthiness of an optional string: present and non-empty. */
  predicate Truthy(s: Option<string>) { s.Some? && |s.value| > 0 }

  /** `from_json`: rebuild through the constructor and the two setters (an unknown
      id is silently ignored), then overwrite every stored field. */
  function FromRecord(r: CharacterRecord): (c: Character)
    ensures c.characterClass == (if Truthy(r.classId) then GetClassById(r.classId.value) else None)
    ensures c.ancestry == (if Truthy(r.ancestryId) then GetAncestryById(r.ancestryId.value) else None)
    ensures c.traits == r.traits && c.currentHp == r.currentHp && c.hitPoints == r.hitPoints
    ensures c.progress == r.progress && c.equipment == r.equipment && c.domainCards == r.domainCards
  {
    var c0 := NewCharacter(r.name, r.playerId);
    var c1 := if Truthy(r.classId) then SetClass(c0, r.classId.value).character else c0;
    var c2 := if Truthy(r.ancestryId) then SetAncestry(c1, r.ancestryId.value).character else c1;
    c2.(community := r.community, traits := r.traits,
        hitPoints := r.hitPoints, currentHp := r.currentHp,
        evasion := r.evasion, damageThreshold := r.damageThreshold,
        progress := r.progress,
        equipment := c2.equipment + r.equipment,
        domainCards := c2.domainCards + r.domainCards,
        inventory := r.inventory, backstory := r.backstory, motivation := r.motivation,
        connections := r.connections, isAlive := r.isAlive, conditions := r.conditions)
  }

  /** Saving and loading a character gives back the same character. */
  lemma RecordRoundTrip(c: Character)
    ensures FromRecord(ToRecord(c)) == c
  {
    if c.characterClass.Some? {
      var id := c.characterClass.value;
      ClassByOwnName(id);
      ClassEntryWellFormed(id);
      assert |ClassKey(id)| > 0;
    }
    if c.ancestry.Some? {
      var id := c.ancestry.value;
      AncestryByOwnName(id);
      AncestryEntryWellFormed(id);
      assert |AncestryKey(id)| > 0;
    }
  }

  /** A record naming classes and ancestries by their table keys. */
  predicate CanonicalRecord(r: CharacterRecord) {
    (r.classId.Some? ==> ClassByKey(r.classId.value).Some?) &&
    (r.ancestryId.Some? ==> AncestryByKey(r.ancestryId.value).Some?)
  }

  /** Loading and saving a canonical record gives back the same record. */
  lemma RecordRoundTripFromRecord(r: CharacterRecord)
    requires CanonicalRecord(r)
    ensures ToRecord(FromRecord(r)) == r
  {
    if r.classId.Some? {
      var id := ClassByKey(r.classId.value).value;
      ClassByOwnName(id);
      ClassEntryWellFormed(id);
      assert |ClassKey(id)| > 0;
    }
    if r.ancestryId.Some? {
      var id := AncestryByKey(r.ancestryId.value).value;
      AncestryByOwnName(id);
      AncestryEntryWellFormed(id);
      assert |AncestryKey(id)| > 0;
    }
  }

  /** A stored id that names no class is dropped on load rather than rejected. */
  lemma UnknownClassIdIsDropped(r: CharacterRecord)
    requires r.classId.Some? && GetClassById(r.classId.value).None?
    ensures FromRecord(r).characterClass == None
    ensures ToRecord(FromRecord(r)).classId == None
  {
  }

  // ---------------------------------------------------------------------------
  // Starting content

  function Gear(name: string, nameRu: string, description: string): Equipment {
    Equipment(name, nameRu, "tool", None, None, None, None, description, [])
  }

  function Weapon(name: string, nameRu: string, damage: string, description: string): Equipment {
    Equipment(name, nameRu, "weapon", Some(damage), None, None, None, description, [])
  }

  function Armor(name: string, nameRu: string, armorValue: int, durability: int): Equipment {
    Equipment(name, nameRu, "armor", None, Some(armorValue), Some(durability), Some(durability), "", [])
  }

  /** `STARTING_EQUIPMENT.get(key, [])`: the kit stored under an exact key. */
  function StartingEquipment(key: string): (kit: seq<Equipment>)
    ensures ClassByKey(key).None? ==> kit == []
    ensures ClassByKey(key).Some? ==> |kit| == 2
  {
    if key == "guardian" then
      [Armor("Shield", "Щит", 2, 5), Weapon("Sword", "Меч", "2d6+1", "Надежное оружие стража")]
    else if key == "ranger" then
      [Weapon("Bow", "Лук", "2d6", "Дальнобойное оружие"), Gear("Quiver", "Колчан", "30 стрел")]
    else if key == "rogue" then
      [Weapon("Dagger", "Кинжал", "1d6+2", "Быстрое и точное оружие"),
       Gear("Thieves' Tools", "Воровские инструменты", "Для взлома замков")]
    else if key == "seraph" then
      [Gear("Holy Symbol", "Святой символ", "Фокус для божественной магии"),
       Gear("Healing Kit", "Аптечка", "Базовое лечение")]
    else if key == "sorcerer" then
      [Gear("Spellbook", "Книга заклинаний", "Содержит изученные заклинания"),
       Gear("Focus Crystal", "Кристалл фокусировки", "Усиливает магию")]
    else if key == "warrior" then
      [Weapon("Battle Axe", "Боевой топор", "2d6+2", "Мощное двуручное оружие"),
       Armor("Leather Armor", "Кожаная броня", 1, 3)]
    else []
  }

  /** `BASIC_DOMAIN_CARDS.get(key, [])`: the basic cards of a lower-case domain key. */
  function BasicDomainCards(key: string): (cards: seq<DomainCard>)
    ensures forall i :: 0 <= i < |cards| ==> Lower(cards[i].domain) == key
  {
    if key == "blade" then
      assert Lower("Blade") == "blade";
      [DomainCard("Strike", "Удар", "Blade", "ability", 1,
         "A basic melee attack", "Базовая атака ближнего боя",
         [("action_type", Text("attack")), ("range", Text("melee")), ("damage", Text("weapon"))], None),
       DomainCard("Parry", "Парирование", "Blade", "ability", 1,
         "Deflect an incoming attack", "Отразить входящую атаку",
         [("action_type", Text("reaction")), ("effect", Text("reduce_damage"))], None)]
    else if key == "arcana" then
      assert Lower("Arcana") == "arcana";
      [DomainCard("Magic Missile", "Магическая стрела", "Arcana", "spell", 1,
         "Unerring magical projectile", "Безошибочный магический снаряд",
         [("action_type", Text("attack")), ("range", Text("far")), ("damage", Text("1d6+knowledge")),
          ("auto_hit", Flag(true))], None),
       DomainCard("Detect Magic", "Обнаружение магии", "Arcana", "spell", 1,
         "Sense magical auras", "Почувствовать магические ауры",
         [("action_type", Text("utility")), ("range", Text("close")), ("duration", Text("scene"))], None)]
    else if key == "grace" then
      assert Lower("Grace") == "grace";
      [DomainCard("Healing Word", "Слово исцеления", "Grace", "spell", 1,
         "Restore hit points with divine magic", "Восстановить хиты божественной магией",
         [("action_type", Text("utility")), ("range", Text("close")), ("healing", Text("1d6+presence"))], None),
       DomainCard("Bless", "Благословение", "Grace", "spell", 1,
         "Grant divine favor", "Даровать божественную милость",
         [("action_type", Text("utility")), ("range", Text("close")), ("effect", Text("advantage_next_roll"))], None)]
    else []
  }

  /** The first basic card of each listed domain that has any, in domain order. */
  function FirstCards(domains: seq<string>): (r: seq<DomainCard>)
    ensures |r| <= |domains|
    ensures forall i :: 0 <= i < |r| ==>
      var own := BasicDomainCards(Lower(r[i].domain)); |own| > 0 && r[i] == own[0]
    ensures forall j :: 0 <= j < |domains| && |BasicDomainCards(Lower(domains[j]))| > 0 ==>
      BasicDomainCards(Lower(domains[j]))[0] in r
  {
    if |domains| == 0 then []
    else
      var cards := BasicDomainCards(Lower(domains[0]));
      assert forall j :: 0 < j < |domains| ==> domains[1..][j - 1] == domains[j];
      (if |cards| > 0 then [cards[0]] else []) + FirstCards(domains[1..])
  }

  /** The cards come in domain order: the cards for a concatenation of domain lists
      are the cards of the first list followed by those of the second. */
  lemma {:induction false} FirstCardsSplit(a: seq<string>, b: seq<string>)
    ensures FirstCards(a + b) == FirstCards(a) + FirstCards(b)
    decreases |a|
  {
    if |a| > 0 {
      assert (a + b)[1..] == a[1..] + b;
      FirstCardsSplit(a[1..], b);
    } else {
      assert a + b == b;
    }
  }

  datatype CreationError = UnknownClass(classId: string) | UnknownAncestry(ancestryId: string) | InvalidTraits

  /** The factory, parameterised by the key used to look up the starting kit. */
  function CreateWith(name: string, playerId: string, classId: string, ancestryId: string,
                      distribution: Traits, equipmentKey: string): (r: Result<Character, CreationError>)
    ensures r.Ok? ==> GetClassById(classId).Some?
    ensures r.Ok? ==> r.value.equipment == StartingEquipment(equipmentKey)
    ensures r.Ok? ==>
      var domains := ClassInfo(GetClassById(classId).value).domains;
      r.value.domainCards == FirstCards(domains[..Min(2, |domains|)])
  {
    var c0 := NewCharacter(name, playerId);
    var withClass := SetClass(c0, classId);
    if !withClass.ok then Err(UnknownClass(classId))
    else
      var withAncestry := SetAncestry(withClass.character, ancestryId);
      if !withAncestry.ok then Err(UnknownAncestry(ancestryId))
      else
        var withTraits := SetTraits(withAncestry.character, distribution);
        if !withTraits.ok then Err(InvalidTraits)
        else
          var domains := ClassInfo(GetClassById(classId).value).domains;
          var c := withTraits.character;
          Ok(c.(equipment := c.equipment + StartingEquipment(equipmentKey),
                domainCards := c.domainCards + FirstCards(domains[..Min(2, |domains|)])))
  }

  /** `create_starting_character`: fails on an unknown class, then on an unknown
      ancestry, then on a trait sum other than 3. Otherwise the traits are exactly the
      distribution (the setter overwrites the ancestry bonuses), the class sets the
      combat stats, the class's kit is equipped in order and at most two domain
      cards are added. The kit is looked up by the lower-cased id. */
  function CreateStartingCharacter(name: string, playerId: string, classId: string, ancestryId: string,
                                   distribution: Traits): (r: Result<Character, CreationError>)
    ensures GetClassById(classId).None? ==> r == Err(UnknownClass(classId))
    ensures GetClassById(classId).Some? && GetAncestryById(ancestryId).None? ==>
      r == Err(UnknownAncestry(ancestryId))
    ensures GetClassById(classId).Some? && GetAncestryById(ancestryId).Some? && distribution.Sum() != TraitTotal ==>
      r == Err(InvalidTraits)
    ensures r.Ok? <==>
      GetClassById(classId).Some? && GetAncestryById(ancestryId).Some? && distribution.Sum() == TraitTotal
    ensures r.Ok? ==>
      var c := r.value;
      var id := GetClassById(classId).value;
      var k := ClassInfo(id);
      && c.name == name && c.playerId == playerId
      && c.characterClass == Some(id) && c.ancestry == GetAncestryById(ancestryId)
      && c.traits == distribution
      && c.hitPoints == c.currentHp == k.hitPointsBase
      && c.evasion == k.evasionBase && c.damageThreshold == k.damageThreshold
      && c.progress == DefaultProgress && c.isAlive
      && c.equipment == StartingEquipment(ClassKey(id)) && |c.equipment| == 2
      && c.domainCards == FirstCards(k.domains[..Min(2, |k.domains|)]) && |c.domainCards| <= 2
      && Healthy(c)
  {
    CreateWith(name, playerId, classId, ancestryId, distribution, Lower(classId))
  }

  /** The factory as the source writes it: the kit is looked up by the id exactly as
      given, while the class itself is looked up case-insensitively. */
  function CreateStartingCharacterAsWritten(name: string, playerId: string, classId: string, ancestryId: string,
                                            distribution: Traits): (r: Result<Character, CreationError>)
    ensures GetClassById(classId).None? ==> r == Err(UnknownClass(classId))
    ensures GetClassById(classId).Some? && GetAncestryById(ancestryId).None? ==>
      r == Err(UnknownAncestry(ancestryId))
    ensures GetClassById(classId).Some? && GetAncestryById(ancestryId).Some? && distribution.Sum() != TraitTotal ==>
      r == Err(InvalidTraits)
    ensures r.Ok? <==>
      GetClassById(classId).Some? && GetAncestryById(ancestryId).Some? && distribution.Sum() == TraitTotal
    ensures r.Ok? ==>
      var c := r.value;
      var id := GetClassById(classId).value;
      var k := ClassInfo(id);
      && c.name == name && c.playerId == playerId
      && c.characterClass == Some(id) && c.ancestry == GetAncestryById(ancestryId)
      && c.traits == distribution
      && c.hitPoints == c.currentHp == k.hitPointsBase
      && c.evasion == k.evasionBase && c.damageThreshold == k.damageThreshold
      && c.progress == DefaultProgress && c.isAlive
      && c.equipment == StartingEquipment(classId)
      && c.domainCards == FirstCards(k.domains[..Min(2, |k.domains|)]) && |c.domainCards| <= 2
      && Healthy(c)
  {
    CreateWith(name, playerId, classId, ancestryId, distribution, classId)
  }

  /** A capitalised class id is accepted yet leaves the character without its kit
      in the source; the corrected factory equips it. */
  lemma CapitalisedClassLosesEquipment()
    ensures var r := CreateStartingCharacterAsWritten("Thorin", "p1", "Guardian", "dwarf", Traits(1, 2, 0, 1, 0, -1));
            r.Ok? && r.value.equipment == []
    ensures var r := CreateStartingCharacter("Thorin", "p1", "Guardian", "dwarf", Traits(1, 2, 0, 1, 0, -1));
            r.Ok? && |r.value.equipment| == 2
  {
    ClassByOwnName(Guardian);
    AncestryByOwnName(Dwarf);
    assert GetClassById("Guardian") == Some(Guardian);
    assert GetAncestryById("dwarf") == Some(Dwarf);
    assert ClassByKey("Guardian") == None;
    assert StartingEquipment("Guardian") == [];
  }

  /** A guardian dwarf keeps the given traits, not the dwarf bonuses, and draws the
      Blade domain's first card only (Valor has no basic cards). */
  lemma StartingGuardianExample()
    ensures var r := CreateStartingCharacter("Thorin", "p1", "guardian", "dwarf", Traits(1, 2, 0, 1, 0, -1));
            r.Ok? && r.value.traits.strength == 2 && r.value.hitPoints == 6
            && r.value.domainCards == [BasicDomainCards("blade")[0]]
  {
    ClassByOwnName(Guardian);
    AncestryByOwnName(Dwarf);
    GuardianCards();
  }

  lemma GuardianCards()
    ensures FirstCards(ClassInfo(Guardian).domains[..2]) == [BasicDomainCards("blade")[0]]
  {
    assert ClassInfo(Guardian).domains[..2] == ["Valor", "Blade"];
    assert Lower("Valor") == "valor";
    assert Lower("Blade") == "blade";
    assert BasicDomainCards("valor") == [];
    var blade := BasicDomainCards("blade");
    assert FirstCards([]) == [];
    assert FirstCards(["Blade"]) == [blade[0]] + FirstCards([]);
    assert FirstCards(["Valor", "Blade"]) == [] + FirstCards(["Blade"]);
  }
}
