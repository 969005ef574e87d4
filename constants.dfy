/**
 * The static tables of the game: enemies, bosses, hero classes, the force
 * bonus of each rarity and the list of slots, with the facts about them
 * that the rest of the game relies on.
 */
module Constants {
  import opened Types

  const ENEMY_DATA: seq<Enemy> := [
    Enemy(1, "Wild Rat", 5, 0.1, 5, (1, 2), 0.05, 1),
    Enemy(2, "Bat", 7, 0.09, 6, (1, 3), 0.06, 1),
    Enemy(3, "Goblin Scout", 10, 0.08, 8, (2, 4), 0.08, 2),
    Enemy(4, "Green Slime", 12, 0.07, 10, (3, 5), 0.1, 2),
    Enemy(5, "Novice Bandit", 14, 0.06, 12, (4, 6), 0.12, 2),
    Enemy(6, "Hungry Wolf", 16, 0.06, 14, (5, 7), 0.14, 2),
    Enemy(7, "Fragile Skeleton", 18, 0.06, 16, (6, 8), 0.15, 3),
    Enemy(8, "Giant Spider", 20, 0.05, 18, (7, 10), 0.18, 3),
    Enemy(9, "Cultist", 22, 0.05, 20, (8, 11), 0.20, 3),
    Enemy(10, "Wandering Zombie", 25, 0.05, 23, (9, 13), 0.22, 4),
    Enemy(11, "Cracked Golem", 28, 0.04, 26, (11, 15), 0.25, 4),
    Enemy(12, "Fallen Knight", 30, 0.04, 30, (13, 18), 0.28, 5),
    Enemy(13, "Crawling Shadow", 33, 0.04, 34, (15, 20), 0.30, 5),
    Enemy(14, "Minor Elemental", 36, 0.03, 38, (18, 24), 0.35, 6),
    Enemy(15, "Masked Assassin", 40, 0.03, 42, (20, 27), 0.38, 6),
    Enemy(16, "Lesser Demon", 45, 0.02, 48, (25, 35), 0.42, 7),
    Enemy(17, "Specter", 50, 0.02, 55, (30, 40), 0.45, 7),
    Enemy(18, "Ancient Guardian", 55, 0.015, 65, (35, 50), 0.50, 8),
    Enemy(19, "Corrupted Monster", 60, 0.015, 75, (40, 60), 0.55, 8),
    Enemy(20, "Cursed Champion", 70, 0.01, 90, (50, 80), 0.60, 10)
  ]

  const BOSS_DATA: seq<Boss> := [
    Boss(1, "Ruins Guardian", 40, "Stone Key", Some(2)),
    Boss(2, "Goblin Lord", 55, "Rusty Key", Some(3)),
    Boss(3, "Beast of the Depths", 70, "Bone Key", Some(4)),
    Boss(4, "Black Knight", 90, "Dark Key", Some(5)),
    Boss(5, "Corrupted Priestess", 115, "Sacred Key", Some(6)),
    Boss(6, "Iron Titan", 145, "Iron Key", Some(7)),
    Boss(7, "Ancient Dragon", 180, "Draconic Key", Some(8)),
    Boss(8, "Supreme Lich", 220, "Necromantic Key", Some(9)),
    Boss(9, "Primordial Demon", 270, "Infernal Key", Some(10)),
    Boss(10, "Void Entity", 330, "Void Key", None)
  ]

  const CLASS_DATA: seq<CharacterClass> := [
    CharacterClass(1, "Adventurer", 140, 330, 0.18),
    CharacterClass(2, "Swordsman", 145, 335, 0.14),
    CharacterClass(3, "Archer", 148, 338, 0.12),
    CharacterClass(4, "Heavy Warrior", 150, 340, 0.10),
    CharacterClass(5, "Thief", 152, 342, 0.09),
    CharacterClass(6, "Paladin", 155, 345, 0.08),
    CharacterClass(7, "Berserker", 158, 348, 0.07),
    CharacterClass(8, "Battle Mage", 160, 350, 0.06),
    CharacterClass(9, "Holy Knight", 165, 355, 0.05),
    CharacterClass(10, "Shadow Assassin", 170, 360, 0.04),
    CharacterClass(11, "Blade Master", 175, 365, 0.03),
    CharacterClass(12, "Ancient Champion", 180, 370, 0.02),
    CharacterClass(13, "Cursed Herald", 185, 375, 0.015),
    CharacterClass(14, "Warlord", 190, 380, 0.008),
    CharacterClass(15, "Dungeon Chosen", 200, 390, 0.007)
  ]

  /** `RARITY_BONUS`: the force bonus an item of each rarity carries. */
  function RarityBonus(r: Rarity): (b: int)
    ensures 1 <= b <= 8
    ensures b == 8 <==> r == Legendary
  {
    match r
    case Common => 1
    case Uncommon => 2
    case Rare => 3
    case Epic => 5
    case Legendary => 8
  }

  const SLOT_NAMES: seq<SlotType> := [Weapon, Armor, Accessory, Relic]

  /** The spawn weights of the enemy table, in table order. */
  function SpawnRates(): (w: seq<real>)
    ensures |w| == |ENEMY_DATA|
    ensures forall i :: 0 <= i < |w| ==> w[i] == ENEMY_DATA[i].spawnRate
  {
    seq(|ENEMY_DATA|, i requires 0 <= i < |ENEMY_DATA| => ENEMY_DATA[i].spawnRate)
  }

  /** The summon weights of the class table, in table order. */
  function ClassProbabilities(): (w: seq<real>)
    ensures |w| == |CLASS_DATA|
    ensures forall i :: 0 <= i < |w| ==> w[i] == CLASS_DATA[i].probability
  {
    seq(|CLASS_DATA|, i requires 0 <= i < |CLASS_DATA| => CLASS_DATA[i].probability)
  }

  /** The running sum `w[0] + ... + w[n-1]` that a weighted draw accumulates. */
  function RunningSum(w: seq<real>, n: nat): real
    requires n <= |w|
  {
    if n == 0 then 0.0 else RunningSum(w, n - 1) + w[n - 1]
  }

  /** With non-negative weights the running sum never decreases. */
  lemma {:induction false} RunningSumMonotone(w: seq<real>, m: nat, n: nat)
    requires m <= n <= |w|
    requires forall i :: 0 <= i < |w| ==> w[i] >= 0.0
    ensures RunningSum(w, m) <= RunningSum(w, n)
  {
    if m < n {
      RunningSumMonotone(w, m, n - 1);
    }
  }

  /** Unfolds the running sum over five consecutive entries. */
  lemma RunningSumSteps(w: seq<real>, m: nat, n: nat)
    requires n == m + 5 <= |w|
    ensures RunningSum(w, n) == RunningSum(w, m) + w[m] + w[m + 1] + w[m + 2] + w[m + 3] + w[m + 4]
  {
    assert RunningSum(w, n) == RunningSum(w, n - 1) + w[m + 4];
    assert RunningSum(w, n - 1) == RunningSum(w, n - 2) + w[m + 3];
    assert RunningSum(w, n - 2) == RunningSum(w, n - 3) + w[m + 2];
    assert RunningSum(w, n - 3) == RunningSum(w, n - 4) + w[m + 1];
  }

  ghost predicate NoDuplicates<T>(s: seq<T>)
  {
    forall i, j :: 0 <= i < j < |s| ==> s[i] != s[j]
  }

  /** `RARITY_BONUS` is strictly increasing along the rarity ladder and at least 1. */
  lemma RarityBonusIncreasing(a: Rarity, b: Rarity)
    ensures RarityBonus(a) >= 1
    ensures Rank(a) < Rank(b) ==> RarityBonus(a) < RarityBonus(b)
    ensures RarityBonus(a) == RarityBonus(b) <==> a == b
  {
  }

  /** Boss ids are 1..10 in table order and each boss links to the next one; the last links to none. */
  lemma BossLadder()
    ensures |BOSS_DATA| == 10
    ensures forall i :: 0 <= i < |BOSS_DATA| ==> BOSS_DATA[i].id == i + 1
    ensures forall i :: 0 <= i < |BOSS_DATA| - 1 ==> BOSS_DATA[i].unlocksBossId == Some(BOSS_DATA[i].id + 1)
    ensures BOSS_DATA[|BOSS_DATA| - 1].unlocksBossId.None?
  {
    forall i | 0 <= i < |BOSS_DATA|
      ensures BOSS_DATA[i].id == i + 1
      ensures i < |BOSS_DATA| - 1 ==> BOSS_DATA[i].unlocksBossId == Some(BOSS_DATA[i].id + 1)
    {
      BossAt(i);
    }
  }

  /** One boss entry, read off the table by case analysis on its index. */
  lemma BossAt(i: nat)
    requires i < |BOSS_DATA|
    ensures BOSS_DATA[i].id == i + 1
    ensures 1 <= BOSS_DATA[i].id <= 10
    ensures i < |BOSS_DATA| - 1 ==> BOSS_DATA[i].unlocksBossId == Some(i + 2)
    ensures i + 1 < |BOSS_DATA| ==> BOSS_DATA[i].force < BOSS_DATA[i + 1].force
  {
    if i == 0 {} else if i == 1 {} else if i == 2 {} else if i == 3 {} else if i == 4 {}
    else if i == 5 {} else if i == 6 {} else if i == 7 {} else if i == 8 {} else {}
  }

  /** Boss force strictly increases with the boss id. */
  lemma {:induction false} BossForceIncreasing(i: nat, j: nat)
    requires i < j < |BOSS_DATA|
    ensures BOSS_DATA[i].force < BOSS_DATA[j].force
  {
    BossAt(j - 1);
    if i < j - 1 {
      BossForceIncreasing(i, j - 1);
    }
  }

  /** Every boss key is a distinct token. */
  lemma BossKeysDistinct()
    ensures forall i, j :: 0 <= i < j < |BOSS_DATA| ==> BOSS_DATA[i].keyName != BOSS_DATA[j].keyName
  {
  }

  /** The spawn weights, read off the enemy table. */
  lemma SpawnRatesListed()
    ensures SpawnRates() == [0.1, 0.09, 0.08, 0.07, 0.06, 0.06, 0.06, 0.05, 0.05, 0.05,
                             0.04, 0.04, 0.04, 0.03, 0.03, 0.02, 0.02, 0.015, 0.015, 0.01]
  {
  }

  /** The summon weights, read off the class table. */
  lemma ClassProbabilitiesListed()
    ensures ClassProbabilities() == [0.18, 0.14, 0.12, 0.10, 0.09, 0.08, 0.07, 0.06, 0.05, 0.04,
                                     0.03, 0.02, 0.015, 0.008, 0.007]
  {
  }

  /** The enemy spawn weights add up to 0.93, short of 1. */
  lemma EnemySpawnTotal()
    ensures |SpawnRates()| == 20
    ensures RunningSum(SpawnRates(), 20) == 0.93
  {
    SpawnRatesListed();
    var w: seq<real> := [0.1, 0.09, 0.08, 0.07, 0.06, 0.06, 0.06, 0.05, 0.05, 0.05,
                         0.04, 0.04, 0.04, 0.03, 0.03, 0.02, 0.02, 0.015, 0.015, 0.01];
    assert RunningSum(w, 5) == 0.40 by { RunningSumSteps(w, 0, 5); }
    assert RunningSum(w, 10) == 0.67 by { RunningSumSteps(w, 5, 10); }
    assert RunningSum(w, 15) == 0.85 by { RunningSumSteps(w, 10, 15); }
    RunningSumSteps(w, 15, 20);
  }

  /** The class weights reach 0.995 before "Warlord" and 1.003 with it. */
  lemma ClassRunningSums()
    ensures |ClassProbabilities()| == 15
    ensures RunningSum(ClassProbabilities(), 13) == 0.995
    ensures RunningSum(ClassProbabilities(), 14) == 1.003
    ensures CLASS_DATA[13].name == "Warlord" && CLASS_DATA[14].id == 15
  {
    ClassProbabilitiesListed();
    var w: seq<real> := [0.18, 0.14, 0.12, 0.10, 0.09, 0.08, 0.07, 0.06, 0.05, 0.04,
                         0.03, 0.02, 0.015, 0.008, 0.007];
    assert RunningSum(w, 5) == 0.63 by { RunningSumSteps(w, 0, 5); }
    assert RunningSum(w, 10) == 0.93 by { RunningSumSteps(w, 5, 10); }
    assert RunningSum(w, 12) == 0.98;
  }

  /** Every weight of both tables is positive. */
  lemma WeightsPositive()
    ensures forall i :: 0 <= i < |SpawnRates()| ==> SpawnRates()[i] > 0.0
    ensures forall i :: 0 <= i < |ClassProbabilities()| ==> ClassProbabilities()[i] > 0.0
  {
    forall i | 0 <= i < |ENEMY_DATA| ensures ENEMY_DATA[i].spawnRate > 0.0 {
      assert ENEMY_DATA[i] in ENEMY_DATA;
    }
    forall i | 0 <= i < |CLASS_DATA| ensures CLASS_DATA[i].probability > 0.0 {
      assert CLASS_DATA[i] in CLASS_DATA;
    }
  }

  /** Every class has a non-empty base-force range. */
  lemma ClassTableWellFormed()
    ensures forall c :: c in CLASS_DATA ==> 140 <= c.minForce <= c.maxForce <= 390
  {
  }

  /** An enemy with a closed gold range starting at 1 or more, positive force, experience and stat bonus, and a chance in (0, 1]. */
  predicate EnemyWellFormed(e: Enemy)
  {
    1 <= e.goldRange.0 <= e.goldRange.1 && e.force > 0 && e.exp > 0 && e.statBonus > 0 &&
    0.0 < e.lootChance <= 1.0 && 0.0 < e.spawnRate
  }

  /** Every enemy of the table is well formed. */
  lemma EnemyTableWellFormed()
    ensures forall e :: e in ENEMY_DATA ==> EnemyWellFormed(e)
  {
    forall i | 0 <= i < |ENEMY_DATA| ensures EnemyWellFormed(ENEMY_DATA[i]) {
      if i < 10 {
        EnemyHalfWellFormed(ENEMY_DATA[..10], i);
      } else {
        EnemyHalfWellFormed(ENEMY_DATA[10..], i - 10);
      }
    }
  }

  /** One half of the enemy table at a time. */
  lemma EnemyHalfWellFormed(half: seq<Enemy>, i: nat)
    requires half == ENEMY_DATA[..10] || half == ENEMY_DATA[10..]
    requires i < |half|
    ensures EnemyWellFormed(half[i])
  {
  }

  /** A boss with an id in 1..10 and a positive force. */
  predicate BossWellFormed(b: Boss)
  {
    1 <= b.id <= 10 && b.force > 0
  }

  /** Every boss of the ladder is well formed. */
  lemma BossTableWellFormed()
    ensures forall b :: b in BOSS_DATA ==> BossWellFormed(b)
  {
  }

  /** `SLOT_NAMES` lists exactly the four slots, each once. */
  lemma SlotNamesComplete()
    ensures |SLOT_NAMES| == 4
    ensures NoDuplicates(SLOT_NAMES)
    ensures forall s: SlotType :: s in SLOT_NAMES
  {
    forall s: SlotType ensures s in SLOT_NAMES {
      match s
      case Weapon => assert SLOT_NAMES[0] == s;
      case Armor => assert SLOT_NAMES[1] == s;
      case Accessory => assert SLOT_NAMES[2] == s;
      case Relic => assert SLOT_NAMES[3] == s;
    }
  }
}
