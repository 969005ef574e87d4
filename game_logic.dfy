/**
 * The combat and progression engine: total force, win probability, the
 * experience ladder, loot rarity rolls, the level-up loop and the
 * probability-to-rarity labels.
 *
 * Every `Math.random()` draw is a parameter: a `real` in [0, 1).
 */
module GameLogic {
  import opened Types
  import opened Constants

  /** A value `Math.random()` can return. */
  predicate IsDraw(u: real)
  {
    0.0 <= u < 1.0
  }

  /** `Math.floor(u * n)` for a draw `u`: an index below `n`. */
  function ScaledIndex(u: real, n: nat): (k: nat)
    requires IsDraw(u) && n > 0
    ensures k < n
    ensures k as real <= u * n as real < k as real + 1.0
  {
    var x := u * n as real;
    assert x < n as real by {
      assert n as real - x == (1.0 - u) * n as real;
      SignOfProduct(1.0 - u, n as real);
    }
    x.Floor
  }

  function Min(a: real, b: real): real { if a <= b then a else b }

  function Max(a: real, b: real): real { if a >= b then a else b }

  // ---------------------------------------------------------------------------
  // Total force

  /** The force bonus an optional item contributes: nothing for an empty slot. */
  function ItemBonus(item: Option<Equipment>): int
  {
    if item.Some? then item.value.forceBonus else 0
  }

  /** The bonuses of the four slots of a loadout added up. */
  function EquipmentBonus(l: Loadout): int
  {
    ItemBonus(l.weapon) + ItemBonus(l.armor) + ItemBonus(l.accessory) + ItemBonus(l.relic)
  }

  /** The bonus accumulated over a list of slots, in list order. */
  function BonusOver(l: Loadout, slots: seq<SlotType>): int
  {
    if slots == [] then 0
    else BonusOver(l, slots[..|slots| - 1]) + ItemBonus(l.Get(slots[|slots| - 1]))
  }

  /** Accumulating over `SLOT_NAMES` visits each slot exactly once. */
  lemma BonusOverAllSlots(l: Loadout)
    ensures BonusOver(l, SLOT_NAMES) == EquipmentBonus(l)
  {
    var s3, s2, s1 := [Weapon, Armor, Accessory], [Weapon, Armor], [Weapon];
    assert SLOT_NAMES[..3] == s3 && s3[..2] == s2 && s2[..1] == s1 && s1[..0] == [];
    assert BonusOver(l, s1) == ItemBonus(l.weapon);
    assert BonusOver(l, s2) == BonusOver(l, s1) + ItemBonus(l.armor);
    assert BonusOver(l, s3) == BonusOver(l, s2) + ItemBonus(l.accessory);
    assert BonusOver(l, SLOT_NAMES) == BonusOver(l, s3) + ItemBonus(l.relic);
  }

  /** An item sits in its own slot and carries the bonus of its rarity. */
  predicate ItemFits(e: Equipment, slot: SlotType)
  {
    e.slot == slot && e.forceBonus == RarityBonus(e.rarity)
  }

  predicate LoadoutValid(l: Loadout)
  {
    forall s :: l.Get(s).Some? ==> ItemFits(l.Get(s).value, s)
  }

  /** Equipped items only ever add force. */
  lemma EquipmentBonusNonNegative(l: Loadout)
    requires LoadoutValid(l)
    ensures EquipmentBonus(l) >= 0
  {
    assert l.Get(Weapon) == l.weapon && l.Get(Armor) == l.armor;
    assert l.Get(Accessory) == l.accessory && l.Get(Relic) == l.relic;
  }

  /** The hero's total force (the value `calculateTotalForce` returns). */
  function TotalForce(h: Hero): (f: int)
    ensures f == h.baseForce + BonusOver(h.equipment, SLOT_NAMES)
    ensures LoadoutValid(h.equipment) ==> f >= h.baseForce
    ensures h.equipment == EMPTY_LOADOUT ==> f == h.baseForce
  {
    BonusOverAllSlots(h.equipment);
    var total := h.baseForce + EquipmentBonus(h.equipment);
    if LoadoutValid(h.equipment) then EquipmentBonusNonNegative(h.equipment); total else total
  }

  /** `calculateTotalForce`: base force plus the bonuses of the equipped items. */
  method CalculateTotalForce(hero: Hero) returns (total: int)
    ensures total == hero.baseForce + EquipmentBonus(hero.equipment) && total == TotalForce(hero)
    ensures hero.equipment == EMPTY_LOADOUT ==> total == hero.baseForce
  {
    var totalBonus := 0;
    for i := 0 to |SLOT_NAMES|
      invariant totalBonus == BonusOver(hero.equipment, SLOT_NAMES[..i])
    {
      var item := hero.equipment.Get(SLOT_NAMES[i]);
      assert SLOT_NAMES[..i + 1][..i] == SLOT_NAMES[..i];
      if item.Some? {
        totalBonus := totalBonus + item.value.forceBonus;
      }
    }
    assert SLOT_NAMES[..|SLOT_NAMES|] == SLOT_NAMES;
    BonusOverAllSlots(hero.equipment);
    total := hero.baseForce + totalBonus;
  }

  // ---------------------------------------------------------------------------
  // Win probability

  /** The raw odds `f / (f + e)` before clamping. */
  function Ratio(heroForce: int, enemyForce: int): (r: real)
    requires heroForce + enemyForce > 0
    ensures r * (heroForce + enemyForce) as real == heroForce as real
    ensures heroForce >= 0 && enemyForce >= 0 ==> 0.0 <= r <= 1.0
  {
    heroForce as real / (heroForce + enemyForce) as real
  }

  /** `getWinProbability`: the odds, clamped so that no fight is ever certain. */
  function WinProbability(heroForce: int, enemyForce: int): (p: real)
    requires heroForce + enemyForce > 0
    ensures 0.01 <= p <= 0.99
    ensures 0.01 <= Ratio(heroForce, enemyForce) <= 0.99 ==> p == Ratio(heroForce, enemyForce)
    ensures Ratio(heroForce, enemyForce) < 0.01 ==> p == 0.01
    ensures Ratio(heroForce, enemyForce) > 0.99 ==> p == 0.99
  {
    Min(0.99, Max(0.01, Ratio(heroForce, enemyForce)))
  }

  /** Equal forces give an even fight. */
  lemma EqualForcesEvenOdds(f: int)
    requires f > 0
    ensures WinProbability(f, f) == 0.5
  {
    var a := f as real;
    assert a > 0.0;
    assert (f + f) as real == a + a;
    assert Ratio(f, f) * (a + a) == a;
    assert (Ratio(f, f) - 0.5) * (a + a) == 0.0;
    SignOfProduct(Ratio(f, f) - 0.5, a + a);
  }

  /** The ratio grows with the hero's force. */
  lemma RatioMonotone(f1: int, f2: int, e: int)
    requires e > 0 && f1 <= f2 && f1 + e > 0
    ensures Ratio(f1, e) <= Ratio(f2, e)
  {
    var a, b, c := f1 as real, f2 as real, e as real;
    assert a * (b + c) <= b * (a + c) by {
      assert a * (b + c) == a * b + a * c;
      assert b * (a + c) == a * b + b * c;
      assert a * c <= b * c;
    }
    assert a / (a + c) <= b / (b + c) by {
      assert a / (a + c) == a * (b + c) / ((a + c) * (b + c));
      assert b / (b + c) == b * (a + c) / ((a + c) * (b + c));
    }
  }

  /** More force never lowers the odds of winning against the same enemy. */
  lemma WinProbabilityMonotone(f1: int, f2: int, e: int)
    requires e > 0 && f1 <= f2 && f1 + e > 0
    ensures WinProbability(f1, e) <= WinProbability(f2, e)
  {
    RatioMonotone(f1, f2, e);
  }

  /** The hero is favoured exactly when stronger than the enemy. */
  lemma WinProbabilityFavours(f: int, e: int)
    requires f >= 0 && e >= 0 && f + e > 0
    ensures WinProbability(f, e) > 0.5 <==> f > e
    ensures WinProbability(f, e) == 0.5 <==> f == e
  {
    var a, c := f as real, e as real;
    var r := Ratio(f, e);
    assert (r - 0.5) * (a + c) == 0.5 * (a - c) by {
      assert r * (a + c) == a;
    }
    SignOfProduct(r - 0.5, a + c);
    assert r > 0.5 <==> f > e;
    assert r == 0.5 <==> f == e;
  }

  /** With a positive factor, a product has the sign of the other factor. */
  lemma SignOfProduct(x: real, y: real)
    requires y > 0.0
    ensures x * y > 0.0 <==> x > 0.0
    ensures x * y == 0.0 <==> x == 0.0
  {
    if x > 0.0 {
      assert x * y > 0.0;
    } else if x < 0.0 {
      assert (-x) * y > 0.0;
    }
  }

  // ---------------------------------------------------------------------------
  // Experience and level-up

  /** `getRequiredExp`: experience needed to leave a level. */
  function RequiredExp(level: int): (r: int)
    ensures level >= 1 ==> r >= 20
  {
    10 + level * 10
  }

  /** Each level asks for exactly ten more experience than the one before. */
  lemma RequiredExpIncreasing(a: int, b: int)
    requires a < b
    ensures RequiredExp(a) < RequiredExp(b)
    ensures RequiredExp(a + 1) == RequiredExp(a) + 10
  {
  }

  /** The experience needed to climb from level `from` to level `to`. */
  function ExpSpan(from: int, to: int): int
    decreases to - from
  {
    if from < to then RequiredExp(from) + ExpSpan(from + 1, to) else 0
  }

  /** Climbing from `a` to `b` costs `5 (b - a) (a + b + 1)` experience. */
  lemma {:induction false} ExpSpanClosedForm(a: int, b: int)
    requires a <= b
    ensures ExpSpan(a, b) == 5 * (b - a) * (a + b + 1)
    decreases b - a
  {
    if a < b {
      ExpSpanClosedForm(a + 1, b);
      assert 5 * (b - a) * (a + b + 1) == RequiredExp(a) + 5 * (b - a - 1) * (a + 1 + b + 1);
    }
  }

  /** Climbing in two stages costs what climbing at once costs. */
  lemma {:induction false} ExpSpanSplit(a: int, b: int, c: int)
    requires a <= b <= c
    ensures ExpSpan(a, c) == ExpSpan(a, b) + ExpSpan(b, c)
    decreases b - a
  {
    if a < b {
      ExpSpanSplit(a + 1, b, c);
    }
  }

  /** Climbing at least one level from a non-negative level costs at least that level's requirement. */
  lemma {:induction false} ExpSpanCoversFirst(a: int, b: int)
    requires 0 <= a < b
    ensures ExpSpan(a, b) >= RequiredExp(a)
    decreases b - a
  {
    if a + 1 < b {
      ExpSpanCoversFirst(a + 1, b);
    }
  }

  /** One pass of the level-up loop. */
  function LevelStep(h: Hero): Hero
  {
    h.(exp := h.exp - RequiredExp(h.level), level := h.level + 1, baseForce := h.baseForce + 15)
  }

  /**
   * The `while` loop of `handleLevelUp`: spend experience on levels for as
   * long as it covers the current requirement.
   */
  function Climb(h: Hero): (r: Hero)
    decreases h.exp
    ensures r.level >= h.level
    ensures r.exp < RequiredExp(r.level)
    ensures h.exp == r.exp + ExpSpan(h.level, r.level)
    ensures r.baseForce == h.baseForce + 15 * (r.level - h.level)
    ensures r == h.(exp := r.exp, level := r.level, baseForce := r.baseForce)
    ensures h.exp >= 0 ==> r.exp >= 0
  {
    if h.exp >= RequiredExp(h.level) then Climb(LevelStep(h)) else h
  }

  /** `handleLevelUp`: the loop, then lives back to 2 if any level was gained. */
  function LevelUp(h: Hero): (r: Hero)
    ensures r.level >= h.level
    ensures r.exp < RequiredExp(r.level)
    ensures h.exp == r.exp + ExpSpan(h.level, r.level)
    ensures r.baseForce == h.baseForce + 15 * (r.level - h.level)
    ensures r.lives == (if r.level > h.level then 2 else h.lives)
    ensures r.level == h.level <==> h.exp < RequiredExp(h.level)
    ensures r.level == h.level ==> r == h
    ensures r.name == h.name && r.heroClass == h.heroClass && r.gold == h.gold
    ensures r.equipment == h.equipment && r.isMiserable == h.isMiserable
    ensures h.exp >= 0 ==> r.exp >= 0
  {
    var c := Climb(h);
    if c.level > h.level then c.(lives := 2) else c
  }

  /**
   * The level and leftover experience `LevelUp` reaches are the only ones
   * that account for all the experience and leave less than the next
   * requirement.
   */
  lemma LevelUpUnique(h: Hero, level: nat, exp: int)
    requires 0 <= exp < RequiredExp(level)
    requires h.level <= level
    requires h.exp == exp + ExpSpan(h.level, level)
    ensures LevelUp(h).level == level && LevelUp(h).exp == exp
  {
    var r := LevelUp(h);
    ExpSpanCoversFirst(0, 1);
    assert h.exp >= 0 by {
      if h.level < level { ExpSpanCoversFirst(h.level, level); }
    }
    if level < r.level {
      ExpSpanSplit(h.level, level, r.level);
      ExpSpanCoversFirst(level, r.level);
      assert false;
    } else if r.level < level {
      ExpSpanSplit(h.level, r.level, level);
      ExpSpanCoversFirst(r.level, level);
      assert false;
    }
  }

  /** Exactly enough experience for one level gives one level and no leftover. */
  lemma LevelUpExactlyOnce(h: Hero)
    requires h.level == 1 && h.exp == 20
    ensures LevelUp(h).level == 2 && LevelUp(h).exp == 0 && LevelUp(h).lives == 2
    ensures LevelUp(h).baseForce == h.baseForce + 15
  {
    LevelUpUnique(h, 2, 0);
  }

  /** One large reward can climb two levels in one call, restoring the lives. */
  lemma LevelUpTwice(h: Hero)
    requires h.level == 1 && h.exp == 55
    ensures LevelUp(h).level == 3 && LevelUp(h).exp == 5 && LevelUp(h).lives == 2
    ensures LevelUp(h).baseForce == h.baseForce + 30
  {
    assert ExpSpan(1, 3) == 50;
    LevelUpUnique(h, 3, 5);
  }

  /** `handleLevelUp`, run as the source's `while` loop on a copy of the hero. */
  method HandleLevelUp(hero: Hero) returns (r: Hero)
    ensures r == LevelUp(hero)
  {
    var current := hero;
    var needed := RequiredExp(current.level);
    var leveledUp := false;
    while current.exp >= needed
      invariant needed == RequiredExp(current.level)
      invariant Climb(current) == Climb(hero)
      invariant current.level >= hero.level
      invariant leveledUp <==> current.level > hero.level
      invariant current.lives == hero.lives
      decreases current.exp
    {
      ghost var previous := current;
      current := current.(exp := current.exp - needed);
      current := current.(level := current.level + 1);
      current := current.(baseForce := current.baseForce + 15);
      leveledUp := true;
      needed := RequiredExp(current.level);
      assert current == LevelStep(previous);
    }
    assert Climb(current) == current;
    if leveledUp {
      current := current.(lives := 2);
    }
    r := current;
  }

  // ---------------------------------------------------------------------------
  // Loot

  /** How far an enemy's force shifts the rarity roll: `enemyForce / 500`, capped at 0.15. */
  function LootShift(enemyForce: int): (b: real)
    ensures b <= 0.15
    ensures enemyForce >= 75 ==> b == 0.15
    ensures enemyForce < 75 ==> b == enemyForce as real / 500.0
  {
    Min(0.15, enemyForce as real / 500.0)
  }

  /** The threshold ladder of `generateLoot`: lower rolls are rarer. */
  function RarityOfRoll(roll: real): (r: Rarity)
    ensures r == Legendary <==> roll < 0.015
    ensures r == Epic <==> 0.015 <= roll < 0.06
    ensures r == Rare <==> 0.06 <= roll < 0.18
    ensures r == Uncommon <==> 0.18 <= roll < 0.45
    ensures r == Common <==> 0.45 <= roll
  {
    if roll < 0.015 then Legendary
    else if roll < 0.06 then Epic
    else if roll < 0.18 then Rare
    else if roll < 0.45 then Uncommon
    else Common
  }

  /** A lower roll never gives a less rare tier. */
  lemma RarityOfRollAntitone(a: real, b: real)
    requires a <= b
    ensures Rank(RarityOfRoll(b)) <= Rank(RarityOfRoll(a))
  {
  }

  /** The rarity `generateLoot` gives for its first draw against an enemy of the given force. */
  function LootRarity(baseSeed: real, enemyForce: int): (r: Rarity)
    ensures r == Legendary <==> baseSeed < 0.015 + LootShift(enemyForce)
    ensures r == Epic <==> 0.015 + LootShift(enemyForce) <= baseSeed < 0.06 + LootShift(enemyForce)
    ensures r == Rare <==> 0.06 + LootShift(enemyForce) <= baseSeed < 0.18 + LootShift(enemyForce)
    ensures r == Uncommon <==> 0.18 + LootShift(enemyForce) <= baseSeed < 0.45 + LootShift(enemyForce)
    ensures r == Common <==> 0.45 + LootShift(enemyForce) <= baseSeed
    ensures LootShift(enemyForce) == 0.0 ==> r == RarityOfRoll(baseSeed)
  {
    RarityOfRoll(baseSeed - LootShift(enemyForce))
  }

  /** For the same draw, a stronger enemy never yields a less rare item. */
  lemma LootRarityMonotone(baseSeed: real, e1: int, e2: int)
    requires e1 <= e2
    ensures Rank(LootRarity(baseSeed, e1)) <= Rank(LootRarity(baseSeed, e2))
  {
    assert LootShift(e1) <= LootShift(e2);
    RarityOfRollAntitone(baseSeed - LootShift(e2), baseSeed - LootShift(e1));
  }

  /** Past force 75 the shift is capped: all stronger enemies roll like force 75. */
  lemma LootRarityCapped(baseSeed: real, e: int)
    requires e >= 75
    ensures LootRarity(baseSeed, e) == LootRarity(baseSeed, 75)
  {
  }

  /** An item of the given rarity for the given slot, named after both. */
  function MakeItem(rarity: Rarity, slot: SlotType, id: string): (e: Equipment)
    ensures ItemFits(e, slot) && e.rarity == rarity && e.id == id
    ensures e.name == RarityName(rarity) + " " + SlotName(slot)
  {
    Equipment(id, RarityName(rarity) + " " + SlotName(slot), slot, rarity, RarityBonus(rarity))
  }

  /**
   * `generateLoot`: always an item, whose rarity comes from `baseSeed`
   * shifted by the enemy's force and whose slot comes from `slotDraw`.
   */
  function GenerateLoot(enemyForce: int, baseSeed: real, slotDraw: real, id: string): (e: Equipment)
    requires IsDraw(slotDraw)
    ensures e.rarity == LootRarity(baseSeed, enemyForce) && e.id == id
    ensures e.slot == SLOT_NAMES[ScaledIndex(slotDraw, |SLOT_NAMES|)]
    ensures ItemFits(e, e.slot)
    ensures e.name == RarityName(e.rarity) + " " + SlotName(e.slot)
  {
    MakeItem(LootRarity(baseSeed, enemyForce), SLOT_NAMES[ScaledIndex(slotDraw, |SLOT_NAMES|)], id)
  }

  /** The ladder of `generateHighTierLoot`: Rare at worst. */
  function HighTierRarity(roll: real): (r: Rarity)
    ensures Rank(r) >= Rank(Rare)
    ensures r == Legendary <==> roll < 0.10
    ensures r == Epic <==> 0.10 <= roll < 0.40
  {
    if roll < 0.10 then Legendary
    else if roll < 0.40 then Epic
    else Rare
  }

  /** `generateHighTierLoot`: a Rare, Epic or Legendary item in the slot `slotDraw` picks. */
  function GenerateHighTierLoot(roll: real, slotDraw: real, id: string): (e: Equipment)
    requires IsDraw(slotDraw)
    ensures e.rarity in {Rare, Epic, Legendary}
    ensures e.rarity == HighTierRarity(roll)
    ensures e.forceBonus >= RarityBonus(Rare)
    ensures e.slot == SLOT_NAMES[ScaledIndex(slotDraw, |SLOT_NAMES|)]
    ensures ItemFits(e, e.slot) && e.id == id
    ensures e.name == RarityName(e.rarity) + " " + SlotName(e.slot)
  {
    MakeItem(HighTierRarity(roll), SLOT_NAMES[ScaledIndex(slotDraw, |SLOT_NAMES|)], id)
  }

  // ---------------------------------------------------------------------------
  // Rarity labels

  /** `getRarityFromProb`: the label of a draw weight, by `prob * 100` against 1.5, 3, 6 and 10. */
  function RarityFromProb(prob: real): (r: Rarity)
    ensures r == Legendary <==> prob * 100.0 < 1.5
    ensures r == Epic <==> 1.5 <= prob * 100.0 < 3.0
    ensures r == Rare <==> 3.0 <= prob * 100.0 < 6.0
    ensures r == Uncommon <==> 6.0 <= prob * 100.0 < 10.0
    ensures r == Common <==> 10.0 <= prob * 100.0
  {
    var p := prob * 100.0;
    if p < 1.5 then Legendary
    else if p < 3.0 then Epic
    else if p < 6.0 then Rare
    else if p < 10.0 then Uncommon
    else Common
  }

  /** A scarcer entry never gets a commoner label. */
  lemma RarityFromProbAntitone(p: real, q: real)
    requires p <= q
    ensures Rank(RarityFromProb(q)) <= Rank(RarityFromProb(p))
  {
  }

  /** Only the "Cursed Champion" is labelled Legendary among the enemies. */
  lemma LegendaryEnemies()
    ensures forall e :: e in ENEMY_DATA ==> (RarityFromProb(e.spawnRate) == Legendary <==> e.id == 20)
  {
    forall i | 0 <= i < |ENEMY_DATA|
      ensures RarityFromProb(ENEMY_DATA[i].spawnRate) == Legendary <==> ENEMY_DATA[i].id == 20
    {
      if i < 10 {
        LegendaryInHalf(ENEMY_DATA[..10], i);
      } else {
        LegendaryInHalf(ENEMY_DATA[10..], i - 10);
      }
    }
  }

  /** One half of the enemy table at a time. */
  lemma LegendaryInHalf(half: seq<Enemy>, i: nat)
    requires half == ENEMY_DATA[..10] || half == ENEMY_DATA[10..]
    requires i < |half|
    ensures RarityFromProb(half[i].spawnRate) == Legendary <==> half[i].id == 20
  {
  }
}
