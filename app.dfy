/**
 * The game-state machine of the application component: the single
 * `GameState` record together with the current view, the active opponent
 * and the last combat result, and the actions that rewrite them.
 *
 * Each `setGameState(prev => ...)` updater is a pure function on
 * `GameState` below (`Summoned`, `BossVictory`, `EnemyVictory`,
 * `BossDefeat`, `EnemyDefeat`, `SanctuaryReward`, `WithLog`); the class
 * `Game` holds the mutable fields and its methods apply those updaters,
 * one atomic step per action. A view change the source schedules with a
 * timer is set at once to its target view.
 */
module App {
  import opened Types
  import opened Constants
  import opened GameLogic
  import TowerMap

  /** The log keeps this many of the most recent messages. */
  const MAX_LOGS: nat := 50
  /** Gold paid for a new summon while a hero exists. */
  const SUMMON_COST: int := 10
  /** Gold paid for the sanctuary's extra life. */
  const LIFE_COST: int := 20
  /** Chance that a victory over a regular enemy leads to the sanctuary. */
  const SANCTUARY_CHANCE: real := 0.20

  const WELCOME: string := "Welcome to the Tower of the Cursed. Ascend or perish."
  const NOT_ENOUGH_GOLD: string := "Not enough gold to summon a new hero."
  const PACT_MESSAGE: string := "You signed a desperate pact. A wretched soul enters the tower."
  const FORCE_MESSAGE: string := "The sanctuary granted you ancient power (+5 Force)."
  const LIFE_MESSAGE: string := "The sanctuary restored your spirit (+1 Life)."

  datatype View = Summon | Dungeon | Combat | Dead | Win | Codex | Sanctuary

  /** The active opponent: a regular enemy or a boss (the source tells them apart by `keyName`). */
  datatype Foe = EnemyFoe(enemy: Enemy) | BossFoe(boss: Boss)
  {
    function Force(): int
    {
      match this
      case EnemyFoe(e) => e.force
      case BossFoe(b) => b.force
    }

    function Name(): string
    {
      match this
      case EnemyFoe(e) => e.name
      case BossFoe(b) => b.name
    }
  }

  /** An opponent with the properties every entry of the enemy table and of the boss ladder has. */
  predicate FoeValid(foe: Foe)
  {
    match foe
    case EnemyFoe(e) => EnemyWellFormed(e)
    case BossFoe(b) => BossWellFormed(b)
  }

  /** What a fight reports to the combat panel. */
  datatype CombatResult = CombatResult(success: bool, loot: Option<Equipment>, gold: int, exp: int, message: string)

  /** The two sanctuary rewards. */
  datatype Reward = ForceReward | LifeReward

  /**
   * The `Math.random()` draws one combat resolution may consume, in the
   * order the source takes them, and the id of the item it may drop.
   */
  datatype CombatDraws = CombatDraws(outcome: real, gold: real, lootGate: real, lootSeed: real,
                                     lootSlot: real, sanctuary: real, itemId: string)

  predicate DrawsValid(d: CombatDraws)
  {
    IsDraw(d.outcome) && IsDraw(d.gold) && IsDraw(d.lootGate) && IsDraw(d.lootSeed) &&
    IsDraw(d.lootSlot) && IsDraw(d.sanctuary)
  }

  // ---------------------------------------------------------------------------
  // Invariants of the game state

  /** A hero as every action leaves it. */
  predicate HeroValid(h: Hero)
  {
    h.level >= 1 && 0 <= h.exp < RequiredExp(h.level) && 0 <= h.lives <= 2 &&
    h.gold >= 0 && h.baseForce >= 0 && LoadoutValid(h.equipment)
  }

  ghost predicate StateValid(s: GameState)
  {
    (s.hero.Some? ==> HeroValid(s.hero.value)) &&
    NoDuplicates(s.unlockedKeys) &&
    0 <= s.maxBossDefeated <= 10 &&
    |s.logs| <= MAX_LOGS
  }

  // ---------------------------------------------------------------------------
  // The message log

  /** `addLog`: the new message first, then at most 49 of the previous ones, in order. */
  function WithLog(logs: seq<string>, msg: string): (r: seq<string>)
    ensures |r| <= MAX_LOGS
    ensures |r| == if |logs| < MAX_LOGS then |logs| + 1 else MAX_LOGS
    ensures r[0] == msg
    ensures forall k :: 0 <= k < |r| - 1 ==> r[k + 1] == logs[k]
  {
    [msg] + logs[..if |logs| < MAX_LOGS - 1 then |logs| else MAX_LOGS - 1]
  }

  /** Nothing is dropped while the log is short; a full log loses only its oldest message. */
  lemma WithLogDropsOnlyOldest(logs: seq<string>, msg: string)
    ensures |logs| < MAX_LOGS ==> WithLog(logs, msg) == [msg] + logs
    ensures |logs| == MAX_LOGS ==> WithLog(logs, msg) == [msg] + logs[..|logs| - 1]
  {
  }

  /** Two messages in a row: the later one comes first. */
  lemma WithLogNewestFirst(logs: seq<string>, m1: string, m2: string)
    ensures WithLog(WithLog(logs, m1), m2)[..2] == [m2, m1]
  {
  }

  function Logged(s: GameState, msg: string): GameState
  {
    s.(logs := WithLog(s.logs, msg))
  }

  /** The decimal text of an integer, for the messages. */
  function IntToString(n: int): string
    decreases if n < 0 then 1 - n else n
  {
    if n < 0 then "-" + IntToString(-n)
    else if n < 10 then ["0123456789"[n]]
    else IntToString(n / 10) + ["0123456789"[n % 10]]
  }

  // ---------------------------------------------------------------------------
  // Weighted selection

  /**
   * The index the weighted draw loop picks, looking from index `i` on:
   * the first entry whose running weight reaches the draw, or 0 when none does.
   */
  function PickFrom(w: seq<real>, r: real, i: nat): (k: nat)
    decreases |w| - i
    ensures (i <= k < |w| && r <= RunningSum(w, k + 1) &&
             forall j :: i < j <= k ==> RunningSum(w, j) < r) ||
            (k == 0 && forall j :: i < j <= |w| ==> RunningSum(w, j) < r)
  {
    if i >= |w| then 0
    else if r <= RunningSum(w, i + 1) then i
    else PickFrom(w, r, i + 1)
  }

  /** The index the weighted draw picks from a whole table. */
  function Pick(w: seq<real>, r: real): (k: nat)
    requires |w| > 0
    ensures k < |w|
  {
    PickFrom(w, r, 0)
  }

  /**
   * The weighted draw: the first entry whose running weight sum is at least
   * `r`, and entry 0 when no running sum reaches `r`.
   */
  lemma PickIsFirstReaching(w: seq<real>, r: real)
    requires |w| > 0
    ensures var k := Pick(w, r);
      (r <= RunningSum(w, k + 1) && forall j :: 0 < j <= k ==> RunningSum(w, j) < r) ||
      (k == 0 && forall j :: 0 < j <= |w| ==> RunningSum(w, j) < r)
  {
  }

  /** The draw loop of the source, as a `for` loop with an early `break`. */
  method SelectWeighted(w: seq<real>, r: real) returns (idx: nat)
    requires |w| > 0
    ensures idx == Pick(w, r)
  {
    idx := 0;
    var acc := 0.0;
    for i := 0 to |w|
      invariant acc == RunningSum(w, i)
      invariant PickFrom(w, r, i) == PickFrom(w, r, 0)
      invariant idx == 0
    {
      acc := acc + w[i];
      if r <= acc {
        idx := i;
        break;
      }
    }
  }

  /** The enemy weights stop at 0.93: every draw above it falls back to the first enemy. */
  lemma EnemyFallback(r: real)
    requires r > 0.93
    ensures Pick(SpawnRates(), r) == 0
    ensures ENEMY_DATA[Pick(SpawnRates(), r)].name == "Wild Rat"
  {
    var w := SpawnRates();
    EnemySpawnTotal();
    WeightsPositive();
    var k := Pick(w, r);
    PickIsFirstReaching(w, r);
    if r <= RunningSum(w, k + 1) {
      RunningSumMonotone(w, k + 1, |w|);
      assert false;
    }
  }

  /** Draws at or below 0.93 find a real match, so the fallback is used exactly above 0.93. */
  lemma EnemyNoFallbackBelow(r: real)
    requires r <= 0.93
    ensures r <= RunningSum(SpawnRates(), Pick(SpawnRates(), r) + 1)
  {
    var w := SpawnRates();
    EnemySpawnTotal();
    PickIsFirstReaching(w, r);
  }

  /** "Dungeon Chosen", the fifteenth class, is never summoned: the weights pass 1 at "Warlord". */
  lemma DungeonChosenNeverDrawn(r: real)
    requires IsDraw(r)
    ensures Pick(ClassProbabilities(), r) < 14 && CLASS_DATA[14].id == 15
  {
    var w := ClassProbabilities();
    ClassRunningSums();
    var k := Pick(w, r);
    PickIsFirstReaching(w, r);
  }

  /** "Warlord" is drawn for exactly the draws above 0.995. */
  lemma WarlordDrawnAbove(r: real)
    requires IsDraw(r)
    ensures Pick(ClassProbabilities(), r) == 13 <==> r > 0.995
  {
    var w := ClassProbabilities();
    ClassRunningSums();
    WeightsPositive();
    var k := Pick(w, r);
    PickIsFirstReaching(w, r);
    DungeonChosenNeverDrawn(r);

  }

  // ---------------------------------------------------------------------------
  // Summoning

  /** Free for the pact and for the first hero; 10 gold while a hero exists. */
  function SummonCost(s: GameState, isMiserable: bool): (c: int)
    ensures c == 0 || c == SUMMON_COST
    ensures c == SUMMON_COST <==> !isMiserable && s.hero.Some?
  {
    if isMiserable then 0 else if s.hero.Some? then SUMMON_COST else 0
  }

  /** A normal summon is refused for a living hero who cannot pay. */
  predicate SummonRejected(s: GameState, isMiserable: bool)
  {
    !isMiserable && s.hero.Some? && s.hero.value.gold < SummonCost(s, isMiserable) && !s.isDead
  }

  /** Refusal happens exactly for a living hero with less than 10 gold who does not take the pact. */
  lemma SummonRejectedWhen(s: GameState, isMiserable: bool)
    ensures SummonRejected(s, isMiserable) <==>
      !isMiserable && s.hero.Some? && !s.isDead && s.hero.value.gold < 10
  {
  }

  /**
   * The summon buttons the interface shows: "Summon Hero" while there is no
   * hero, "Replace Hero" for a living hero, and on the death screen "New
   * Summon" only with 10 gold, the pact only below 10 gold.
   */
  predicate SummonOffered(s: GameState, isMiserable: bool)
  {
    if isMiserable then s.hero.Some? && s.isDead && s.hero.value.gold < SUMMON_COST
    else s.hero.None? || !s.isDead || s.hero.value.gold >= SUMMON_COST
  }

  /** The base-force roll of a class: an integer in `[minForce, maxForce]`. */
  function RollForce(c: CharacterClass, u: real): (roll: int)
    requires IsDraw(u) && c.minForce <= c.maxForce
    ensures c.minForce <= roll <= c.maxForce
  {
    ScaledIndex(u, c.maxForce - c.minForce + 1) + c.minForce
  }

  /** A tenth of the roll, rounded down; the pact halves that again, but never below 2. */
  function SummonedBaseForce(roll: int, isMiserable: bool): (f: int)
    ensures !isMiserable ==> 10 * f <= roll < 10 * f + 10
    ensures isMiserable ==> if roll < 60 then f == 2 else 20 * f <= roll < 20 * f + 20
  {
    var tenth := roll / 10;
    if isMiserable then (if 2 >= tenth / 2 then 2 else tenth / 2) else tenth
  }

  /** Every class gives a normal hero 14..39 base force and a pact hero 7..19. */
  lemma SummonedForceRange(c: CharacterClass, u: real, isMiserable: bool)
    requires c in CLASS_DATA && IsDraw(u)
    ensures var f := (ClassTableWellFormed(); SummonedBaseForce(RollForce(c, u), isMiserable));
      if isMiserable then 7 <= f <= 19 else 14 <= f <= 39
  {
    ClassTableWellFormed();
  }

  /** The hero a summon creates. */
  function FreshHero(s: GameState, isMiserable: bool, c: CharacterClass, baseForce: int): (h: Hero)
    ensures h.name == if isMiserable then "The Wretched" else "Dungeon Seeker"
    ensures h.level == 1 && h.exp == 0 && h.lives == 2 && h.equipment == EMPTY_LOADOUT
    ensures h.heroClass == c && h.baseForce == baseForce && h.isMiserable == isMiserable
    ensures h.gold >= 0
    ensures s.hero.None? ==> h.gold == 0
    ensures s.hero.Some? && s.hero.value.gold >= SummonCost(s, isMiserable) ==>
      h.gold == s.hero.value.gold - SummonCost(s, isMiserable)
    ensures s.hero.Some? && s.hero.value.gold < SummonCost(s, isMiserable) ==> h.gold == 0
  {
    Hero(if isMiserable then "The Wretched" else "Dungeon Seeker", c, baseForce, 0, 1,
         if s.hero.Some? then (if s.hero.value.gold - SummonCost(s, isMiserable) >= 0
                               then s.hero.value.gold - SummonCost(s, isMiserable) else 0)
         else 0,
         2, isMiserable, EMPTY_LOADOUT)
  }

  /** The summon updater: a fresh hero replaces the old one, and the hero is alive. */
  function Summoned(s: GameState, isMiserable: bool, c: CharacterClass, baseForce: int): (r: GameState)
    ensures r.hero.Some? && !r.isDead
    ensures var h := r.hero.value;
      h.level == 1 && h.exp == 0 && h.lives == 2 && h.equipment == EMPTY_LOADOUT &&
      h.heroClass == c && h.baseForce == baseForce && h.isMiserable == isMiserable
    ensures r.hero.value.name == if isMiserable then "The Wretched" else "Dungeon Seeker"
    ensures r.hero.value.gold ==
      if s.hero.Some? then (if s.hero.value.gold >= SummonCost(s, isMiserable)
                            then s.hero.value.gold - SummonCost(s, isMiserable) else 0)
      else 0
    ensures r.unlockedKeys == s.unlockedKeys && r.maxBossDefeated == s.maxBossDefeated
    ensures r.gameWon == s.gameWon && r.logs == s.logs
    ensures StateValid(s) && baseForce >= 0 ==> StateValid(r)
  {
    s.(hero := Some(FreshHero(s, isMiserable, c, baseForce)), isDead := false)
  }

  /** The message a successful summon logs. */
  function SummonMessage(isMiserable: bool, c: CharacterClass, baseForce: int): string
  {
    if isMiserable then PACT_MESSAGE
    else "Summoned a " + c.name + ". Base Force: " + IntToString(baseForce)
  }

  /** What `summonHero` does to the game state for its two draws. */
  function SummonOutcome(s: GameState, isMiserable: bool, classDraw: real, forceDraw: real): (r: GameState)
    requires IsDraw(forceDraw)
    ensures SummonRejected(s, isMiserable) ==> r == Logged(s, NOT_ENOUGH_GOLD)
    ensures !SummonRejected(s, isMiserable) ==>
      var c := CLASS_DATA[Pick(ClassProbabilities(), classDraw)];
      var f := (ClassTableWellFormed(); SummonedBaseForce(RollForce(c, forceDraw), isMiserable));
      r == Logged(Summoned(s, isMiserable, c, f), SummonMessage(isMiserable, c, f)) &&
      r.hero.Some? && r.hero.value.heroClass == c && r.hero.value.baseForce == f &&
      r.hero.value.level == 1 && !r.isDead
    ensures SummonOffered(s, isMiserable) && s.hero.Some? && s.hero.value.gold >= 0 &&
            !SummonRejected(s, isMiserable) ==>
      r.hero.Some? && r.hero.value.gold == s.hero.value.gold - SummonCost(s, isMiserable)
    ensures r.unlockedKeys == s.unlockedKeys && r.maxBossDefeated == s.maxBossDefeated
    ensures StateValid(s) ==> StateValid(r)
  {
    if SummonRejected(s, isMiserable) then Logged(s, NOT_ENOUGH_GOLD)
    else
      var c := CLASS_DATA[Pick(ClassProbabilities(), classDraw)];
      var f := (ClassTableWellFormed(); SummonedBaseForce(RollForce(c, forceDraw), isMiserable));
      Logged(Summoned(s, isMiserable, c, f), SummonMessage(isMiserable, c, f))
  }

  /** Resummoning a dead hero who can pay costs exactly 10 gold; the pact costs nothing. */
  lemma ResummonCost(s: GameState, isMiserable: bool, c: CharacterClass, baseForce: int)
    requires s.hero.Some? && s.hero.value.gold >= SUMMON_COST
    ensures var g := Summoned(s, isMiserable, c, baseForce).hero.value.gold;
      g == if isMiserable then s.hero.value.gold else s.hero.value.gold - SUMMON_COST
  {
  }

  // ---------------------------------------------------------------------------
  // Boss fights

  /** Gold for defeating a boss: 50 plus 20 per floor. */
  function BossGold(boss: Boss): (g: int)
    ensures BossWellFormed(boss) ==> 70 <= g <= 250
    ensures (g - 50) % 20 == 0
  {
    50 + boss.id * 20
  }

  /** Adds a key only if it is absent. */
  function AddKey(keys: seq<string>, key: string): (r: seq<string>)
    ensures key in r
    ensures forall k :: k in r <==> k in keys || k == key
    ensures |r| >= |keys| && r[..|keys|] == keys
    ensures key in keys ==> r == keys
    ensures NoDuplicates(keys) ==> NoDuplicates(r)
  {
    if key in keys then keys else keys + [key]
  }

  /** The boss-victory updater. */
  function BossVictory(s: GameState, boss: Boss): (r: GameState)
    ensures r.maxBossDefeated >= s.maxBossDefeated && r.maxBossDefeated >= boss.id
    ensures r.maxBossDefeated == s.maxBossDefeated || r.maxBossDefeated == boss.id
    ensures r.unlockedKeys == AddKey(s.unlockedKeys, boss.keyName)
    ensures r.gameWon <==> boss.id == 10
    ensures s.hero.None? ==> r.hero.None?
    ensures s.hero.Some? ==> r.hero == Some(s.hero.value.(gold := s.hero.value.gold + BossGold(boss)))
    ensures r.isDead == s.isDead && r.logs == s.logs
    ensures StateValid(s) && BossWellFormed(boss) ==> StateValid(r)
  {
    s.(unlockedKeys := AddKey(s.unlockedKeys, boss.keyName),
       maxBossDefeated := if s.maxBossDefeated >= boss.id then s.maxBossDefeated else boss.id,
       hero := if s.hero.Some? then Some(s.hero.value.(gold := s.hero.value.gold + BossGold(boss))) else None,
       gameWon := boss.id == 10)
  }

  /** Defeating the same boss twice leaves a single copy of its key. */
  lemma BossKeyIdempotent(s: GameState, boss: Boss)
    ensures BossVictory(BossVictory(s, boss), boss).unlockedKeys == BossVictory(s, boss).unlockedKeys
    ensures BossVictory(BossVictory(s, boss), boss).maxBossDefeated == BossVictory(s, boss).maxBossDefeated
  {
  }

  /** The boss-defeat updater: instant death. */
  function BossDefeat(s: GameState): (r: GameState)
    ensures r.isDead
    ensures r.hero == s.hero
    ensures r.unlockedKeys == s.unlockedKeys && r.maxBossDefeated == s.maxBossDefeated
    ensures r.gameWon == s.gameWon && r.logs == s.logs
  {
    s.(isDead := true)
  }

  // ---------------------------------------------------------------------------
  // Regular fights

  /** The gold an enemy drops: an integer of its closed gold range. */
  function GoldRoll(e: Enemy, u: real): (g: int)
    requires IsDraw(u) && e.goldRange.0 <= e.goldRange.1
    ensures e.goldRange.0 <= g <= e.goldRange.1
  {
    ScaledIndex(u, e.goldRange.1 - e.goldRange.0 + 1) + e.goldRange.0
  }

  /** Equip-if-better: the item takes its slot only if the slot is empty or it is strictly stronger. */
  function EquipIfBetter(l: Loadout, item: Equipment): (r: Loadout)
    ensures var cur := l.Get(item.slot);
      r.Get(item.slot) == if cur.None? || item.forceBonus > cur.value.forceBonus then Some(item) else cur
    ensures forall s :: s != item.slot ==> r.Get(s) == l.Get(s)
    ensures LoadoutValid(l) && ItemFits(item, item.slot) ==> LoadoutValid(r)
  {
    var cur := l.Get(item.slot);
    if cur.None? || item.forceBonus > cur.value.forceBonus then l.Set(item.slot, Some(item)) else l
  }

  /** Equipping never lowers the bonus of any slot, nor the total bonus. */
  lemma EquipNeverWeakens(l: Loadout, item: Equipment)
    requires LoadoutValid(l) && ItemFits(item, item.slot)
    ensures forall s :: ItemBonus(EquipIfBetter(l, item).Get(s)) >= ItemBonus(l.Get(s))
    ensures EquipmentBonus(EquipIfBetter(l, item)) >= EquipmentBonus(l)
  {
    var r := EquipIfBetter(l, item);
    forall s ensures ItemBonus(r.Get(s)) >= ItemBonus(l.Get(s)) {
      if s == item.slot {
        RarityBonusIncreasing(item.rarity, item.rarity);
      }
    }
    assert r.Get(Weapon) == r.weapon && r.Get(Armor) == r.armor;
    assert r.Get(Accessory) == r.accessory && r.Get(Relic) == r.relic;
    assert l.Get(Weapon) == l.weapon && l.Get(Armor) == l.armor;
    assert l.Get(Accessory) == l.accessory && l.Get(Relic) == l.relic;
  }

  /** An item only as strong as the current one is discarded; a stronger one is equipped. */
  lemma EquipTieKeepsCurrent(l: Loadout, item: Equipment)
    requires l.Get(item.slot).Some?
    ensures item.forceBonus <= l.Get(item.slot).value.forceBonus ==> EquipIfBetter(l, item) == l
    ensures item.forceBonus > l.Get(item.slot).value.forceBonus ==> EquipIfBetter(l, item).Get(item.slot) == Some(item)
  {
  }

  /** The rewards of a victory before levelling: experience, gold, stat bonus and maybe the loot. */
  function Rewarded(h: Hero, e: Enemy, gold: int, loot: Option<Equipment>): (r: Hero)
    ensures r.exp == h.exp + e.exp && r.gold == h.gold + gold && r.baseForce == h.baseForce + e.statBonus
    ensures loot.None? ==> r.equipment == h.equipment
    ensures loot.Some? ==> r.equipment == EquipIfBetter(h.equipment, loot.value)
    ensures r == h.(exp := r.exp, gold := r.gold, baseForce := r.baseForce, equipment := r.equipment)
  {
    h.(exp := h.exp + e.exp, gold := h.gold + gold, baseForce := h.baseForce + e.statBonus,
       equipment := if loot.Some? then EquipIfBetter(h.equipment, loot.value) else h.equipment)
  }

  /** The enemy-victory updater: rewards, equip-if-better, then the level-up loop. */
  function EnemyVictory(s: GameState, e: Enemy, gold: int, loot: Option<Equipment>): (r: GameState)
    ensures s.hero.None? ==> r == s
    ensures s.hero.Some? ==> (r.hero.Some? &&
      var h, n := s.hero.value, r.hero.value;
      n.gold == h.gold + gold &&
      n.level >= h.level &&
      h.exp + e.exp == n.exp + ExpSpan(h.level, n.level) &&
      n.baseForce == h.baseForce + e.statBonus + 15 * (n.level - h.level) &&
      n.lives == (if n.level > h.level then 2 else h.lives) &&
      n.equipment == (if loot.Some? then EquipIfBetter(h.equipment, loot.value) else h.equipment) &&
      n.name == h.name && n.heroClass == h.heroClass && n.isMiserable == h.isMiserable)
    ensures r.unlockedKeys == s.unlockedKeys && r.maxBossDefeated == s.maxBossDefeated
    ensures r.isDead == s.isDead && r.gameWon == s.gameWon && r.logs == s.logs
    ensures (StateValid(s) && EnemyWellFormed(e) && gold >= 0 &&
             (loot.Some? ==> ItemFits(loot.value, loot.value.slot))) ==> StateValid(r)
  {
    if s.hero.None? then s
    else
      var h := LevelUp(Rewarded(s.hero.value, e, gold, loot));
      s.(hero := Some(h))
  }

  /** The enemy-defeat updater: one life lost; at zero the hero dies. */
  function EnemyDefeat(s: GameState): (r: GameState)
    ensures s.hero.None? ==> r == s
    ensures s.hero.Some? ==> (r.hero.Some? &&
      var h, n := s.hero.value, r.hero.value;
      n == h.(lives := n.lives) &&
      (h.lives - 1 <= 0 ==> n.lives == 0 && r.isDead) &&
      (h.lives - 1 > 0 ==> n.lives == h.lives - 1 && r.isDead == s.isDead))
    ensures r.unlockedKeys == s.unlockedKeys && r.maxBossDefeated == s.maxBossDefeated
    ensures r.gameWon == s.gameWon && r.logs == s.logs
    ensures StateValid(s) ==> StateValid(r)
  {
    if s.hero.None? then s
    else if s.hero.value.lives - 1 <= 0 then s.(isDead := true, hero := Some(s.hero.value.(lives := 0)))
    else s.(hero := Some(s.hero.value.(lives := s.hero.value.lives - 1)))
  }

  /** The two losses differ: a boss kills a hero with full lives, an enemy takes one life. */
  lemma LossAsymmetry(s: GameState)
    requires s.hero.Some? && s.hero.value.lives == 2 && !s.isDead
    ensures BossDefeat(s).isDead && BossDefeat(s).hero.value.lives == 2
    ensures !EnemyDefeat(s).isDead && EnemyDefeat(s).hero.value.lives == 1
  {
  }

  /** With one life left, losing to an enemy is death. */
  lemma LastLifeLost(s: GameState)
    requires s.hero.Some? && s.hero.value.lives == 1
    ensures EnemyDefeat(s).isDead && EnemyDefeat(s).hero.value.lives == 0
  {
  }

  // ---------------------------------------------------------------------------
  // Combat resolution

  /** The combined outcome of one fight: new state, reported result and the view it leads to, if any. */
  datatype Outcome = Outcome(state: GameState, result: CombatResult, next: Option<View>)

  /** Whether the outcome draw wins the fight. */
  predicate Wins(h: Hero, foe: Foe, d: CombatDraws)
    requires HeroValid(h) && FoeValid(foe)
  {
    EquipmentBonusNonNegative(h.equipment);
    d.outcome < WinProbability(TotalForce(h), foe.Force())
  }

  /** The loot a victory over `e` drops, if the loot-chance draw lets it. */
  function DroppedLoot(e: Enemy, d: CombatDraws): (loot: Option<Equipment>)
    requires DrawsValid(d)
    ensures loot.Some? <==> d.lootGate < e.lootChance
    ensures loot.Some? ==> loot.value == GenerateLoot(e.force, d.lootSeed, d.lootSlot, d.itemId)
  {
    if d.lootGate < e.lootChance then Some(GenerateLoot(e.force, d.lootSeed, d.lootSlot, d.itemId)) else None
  }

  function BossWinMessage(b: Boss): string
  {
    "You defeated the " + b.name + "! Obtained " + b.keyName + "."
  }

  function BossLossMessage(name: string): string
  {
    "The " + name + " crushed you. Instant death."
  }

  function EnemyWinMessage(e: Enemy): string
  {
    "Victory against " + e.name + "!"
  }

  function EnemyLossMessage(name: string): string
  {
    "You were defeated by " + name + ". Lost 1 life."
  }

  /** A fight against a boss, once the outcome draw has decided it. */
  function ResolveBoss(s: GameState, b: Boss, won: bool): (o: Outcome)
    requires BossWellFormed(b)
    ensures o.result.success == won && o.result.loot.None? && o.result.exp == 0
    ensures o.state.logs == WithLog(s.logs, o.result.message)
    ensures o.state.maxBossDefeated >= s.maxBossDefeated
    ensures |o.state.unlockedKeys| >= |s.unlockedKeys| && o.state.unlockedKeys[..|s.unlockedKeys|] == s.unlockedKeys
    ensures won ==> o.state.maxBossDefeated >= b.id && b.keyName in o.state.unlockedKeys &&
                    o.result.gold == BossGold(b) && (o.state.gameWon <==> b.id == 10) &&
                    (o.next == Some(Win) <==> b.id == 10) && o.next != Some(Dead) && o.state.isDead == s.isDead
    ensures !won ==> o.state.isDead && o.state.hero == s.hero && o.next == Some(Dead) &&
                     o.state.maxBossDefeated == s.maxBossDefeated && o.result.gold == 0
    ensures o.result.message == if won then BossWinMessage(b) else BossLossMessage(b.name)
    ensures won ==> o.state == Logged(BossVictory(s, b), o.result.message)
    ensures o.next == if won then (if b.id == 10 then Some(Win) else None) else Some(Dead)
    ensures !won ==> o.state == Logged(BossDefeat(s), o.result.message)
    ensures StateValid(s) ==> StateValid(o.state)
  {
    if won then
      var msg := BossWinMessage(b);
      Outcome(Logged(BossVictory(s, b), msg), CombatResult(true, None, BossGold(b), 0, msg),
              if b.id == 10 then Some(Win) else None)
    else
      var msg := BossLossMessage(b.name);
      Outcome(Logged(BossDefeat(s), msg), CombatResult(false, None, 0, 0, msg), Some(Dead))
  }

  /** A fight against a regular enemy, once the outcome draw has decided it. */
  function ResolveEnemy(s: GameState, e: Enemy, d: CombatDraws, won: bool): (o: Outcome)
    requires s.hero.Some? && EnemyWellFormed(e) && DrawsValid(d)
    ensures o.result.success == won
    ensures o.state.logs == WithLog(s.logs, o.result.message)
    ensures o.state.maxBossDefeated == s.maxBossDefeated && o.state.unlockedKeys == s.unlockedKeys
    ensures o.state.gameWon == s.gameWon && o.next != Some(Win) && o.state.hero.Some?
    ensures won ==> o.result.exp == e.exp && e.goldRange.0 <= o.result.gold <= e.goldRange.1 &&
                    (o.result.loot.Some? <==> d.lootGate < e.lootChance) &&
                    o.state.hero.value.gold == s.hero.value.gold + o.result.gold &&
                    o.state.isDead == s.isDead &&
                    (o.next == Some(Sanctuary) <==> d.sanctuary < SANCTUARY_CHANCE) && o.next != Some(Dead)
    ensures !won ==> o.result.gold == 0 && o.result.exp == 0 && o.result.loot.None? &&
                     o.state.hero.value.lives == (if s.hero.value.lives > 1 then s.hero.value.lives - 1 else 0) &&
                     (o.next == Some(Dead) <==> s.hero.value.lives <= 1) && o.next != Some(Sanctuary) &&
                     (o.next == Some(Dead) ==> o.state.isDead)
    ensures o.result.message == if won then EnemyWinMessage(e) else EnemyLossMessage(e.name)
    ensures won ==> o.result.gold == GoldRoll(e, d.gold) && o.result.loot == DroppedLoot(e, d) &&
                    o.state == Logged(EnemyVictory(s, e, o.result.gold, o.result.loot), o.result.message)
    ensures !won ==> o.state == Logged(EnemyDefeat(s), o.result.message)
    ensures o.next == if won then (if d.sanctuary < SANCTUARY_CHANCE then Some(Sanctuary) else None)
                      else (if s.hero.value.lives <= 1 then Some(Dead) else None)
    ensures StateValid(s) ==> StateValid(o.state)
  {
    if won then
      var gold := GoldRoll(e, d.gold);
      var loot := DroppedLoot(e, d);
      var msg := EnemyWinMessage(e);
      Outcome(Logged(EnemyVictory(s, e, gold, loot), msg), CombatResult(true, loot, gold, e.exp, msg),
              if d.sanctuary < SANCTUARY_CHANCE then Some(Sanctuary) else None)
    else
      var msg := EnemyLossMessage(e.name);
      Outcome(Logged(EnemyDefeat(s), msg), CombatResult(false, None, 0, 0, msg),
              if s.hero.value.lives - 1 <= 0 then Some(Dead) else None)
  }

  /** `resolveCombat` for a hero and an opponent, with its draws. */
  function Resolve(s: GameState, foe: Foe, d: CombatDraws): (o: Outcome)
    requires s.hero.Some? && HeroValid(s.hero.value) && FoeValid(foe) && DrawsValid(d)
    ensures o.state.logs == WithLog(s.logs, o.result.message)
    ensures o.result.success == Wins(s.hero.value, foe, d)
    ensures o.state.maxBossDefeated >= s.maxBossDefeated
    ensures |o.state.unlockedKeys| >= |s.unlockedKeys| && o.state.unlockedKeys[..|s.unlockedKeys|] == s.unlockedKeys
    ensures o.next == Some(Win) <==> foe.BossFoe? && foe.boss.id == 10 && o.result.success
    ensures foe.BossFoe? && !o.result.success ==>
      o.state.isDead && o.state.hero == s.hero && o.next == Some(Dead)
    ensures foe.EnemyFoe? && !o.result.success ==> (o.state.hero.Some? &&
      o.state.hero.value.lives == (if s.hero.value.lives > 1 then s.hero.value.lives - 1 else 0) &&
      (o.next == Some(Dead) <==> s.hero.value.lives <= 1))
    ensures o.next == Some(Dead) ==> o.state.isDead
    ensures o.next == Some(Sanctuary) ==> foe.EnemyFoe? && o.result.success
    ensures StateValid(s) ==> StateValid(o.state)
  {
    match foe
    case BossFoe(b) => ResolveBoss(s, b, Wins(s.hero.value, foe, d))
    case EnemyFoe(e) => ResolveEnemy(s, e, d, Wins(s.hero.value, foe, d))
  }

  /** Beating the last boss wins the game. */
  lemma FinalBossWins(s: GameState, b: Boss, d: CombatDraws)
    requires s.hero.Some? && HeroValid(s.hero.value) && DrawsValid(d)
    requires BossWellFormed(b) && b.id == 10 && Wins(s.hero.value, BossFoe(b), d)
    ensures Resolve(s, BossFoe(b), d).state.gameWon
    ensures Resolve(s, BossFoe(b), d).next == Some(Win)
    ensures Resolve(s, BossFoe(b), d).state.maxBossDefeated >= 10
  {
  }

  // ---------------------------------------------------------------------------
  // The sanctuary

  /** The panel offers the extra life only to a hero who can pay for it. */
  predicate LifeOffered(h: Hero)
  {
    h.gold >= LIFE_COST
  }

  /** The sanctuary updater. */
  function SanctuaryReward(s: GameState, kind: Reward): (r: GameState)
    ensures s.hero.None? ==> r == s
    ensures s.hero.Some? && kind == ForceReward ==>
      r == Logged(s.(hero := Some(s.hero.value.(baseForce := s.hero.value.baseForce + 5))), FORCE_MESSAGE)
    ensures s.hero.Some? && kind == LifeReward ==> (r.hero.Some? &&
      r.hero.value.lives == (if s.hero.value.lives + 1 <= 2 then s.hero.value.lives + 1 else 2) &&
      r.hero.value.gold == s.hero.value.gold - LIFE_COST &&
      r.hero.value == s.hero.value.(lives := r.hero.value.lives, gold := r.hero.value.gold) &&
      r.logs == WithLog(s.logs, LIFE_MESSAGE))
    ensures r.unlockedKeys == s.unlockedKeys && r.maxBossDefeated == s.maxBossDefeated && r.isDead == s.isDead
    ensures r.gameWon == s.gameWon
    ensures StateValid(s) && (kind == ForceReward || s.hero.None? || LifeOffered(s.hero.value)) ==> StateValid(r)
  {
    if s.hero.None? then s
    else
      var h := s.hero.value;
      match kind
      case ForceReward => Logged(s.(hero := Some(h.(baseForce := h.baseForce + 5))), FORCE_MESSAGE)
      case LifeReward =>
        Logged(s.(hero := Some(h.(lives := if h.lives + 1 <= 2 then h.lives + 1 else 2, gold := h.gold - LIFE_COST))),
               LIFE_MESSAGE)
  }

  /** Taking the life the panel offers never leaves the hero in debt nor above two lives. */
  lemma LifeRewardBounded(s: GameState)
    requires s.hero.Some? && HeroValid(s.hero.value) && LifeOffered(s.hero.value)
    ensures SanctuaryReward(s, LifeReward).hero.value.gold >= 0
    ensures 1 <= SanctuaryReward(s, LifeReward).hero.value.lives <= 2
  {
  }

  // ---------------------------------------------------------------------------
  // The application component

  class Game {
    var state: GameState
    var view: View
    var activeEnemy: Option<Foe>
    var combatResult: Option<CombatResult>

    ghost predicate Valid()
      reads this
    {
      StateValid(state) && (activeEnemy.Some? ==> FoeValid(activeEnemy.value))
    }

    /** The initial state: no hero, no keys, the welcome message, the summon view. */
    constructor ()
      ensures Valid()
      ensures state == GameState(None, [], 0, false, false, [WELCOME])
      ensures view == Summon && activeEnemy == None && combatResult == None
    {
      state := GameState(None, [], 0, false, false, [WELCOME]);
      view := Summon;
      activeEnemy := None;
      combatResult := None;
    }

    /** `addLog` */
    method AddLog(msg: string)
      requires Valid()
      modifies this
      ensures Valid()
      ensures state == Logged(old(state), msg)
      ensures view == old(view) && activeEnemy == old(activeEnemy) && combatResult == old(combatResult)
    {
      state := state.(logs := WithLog(state.logs, msg));
    }

    /** `summonHero`: refused with a log line, or a fresh hero and the dungeon view. */
    method SummonHero(isMiserable: bool, classDraw: real, forceDraw: real)
      requires Valid() && IsDraw(classDraw) && IsDraw(forceDraw)
      modifies this
      ensures Valid()
      ensures state == SummonOutcome(old(state), isMiserable, classDraw, forceDraw)
      ensures view == if SummonRejected(old(state), isMiserable) then old(view) else Dungeon
      ensures activeEnemy == old(activeEnemy) && combatResult == old(combatResult)
    {
      var cost := if isMiserable then 0 else if state.hero.Some? then SUMMON_COST else 0;
      if !isMiserable && state.hero.Some? && state.hero.value.gold < cost && !state.isDead {
        AddLog(NOT_ENOUGH_GOLD);
        return;
      }
      var idx := SelectWeighted(ClassProbabilities(), classDraw);
      var selectedClass := CLASS_DATA[idx];
      ClassTableWellFormed();
      var baseForceValue := RollForce(selectedClass, forceDraw);
      var finalBaseForce := SummonedBaseForce(baseForceValue, isMiserable);
      state := Summoned(state, isMiserable, selectedClass, finalBaseForce);
      view := Dungeon;
      state := Logged(state, SummonMessage(isMiserable, selectedClass, finalBaseForce));
    }

    /** `startCombat` */
    method StartCombat(foe: Foe)
      requires Valid() && FoeValid(foe)
      modifies this
      ensures Valid()
      ensures activeEnemy == Some(foe) && combatResult == None && view == Combat
      ensures state == old(state)
    {
      activeEnemy := Some(foe);
      combatResult := None;
      view := Combat;
    }

    /** `findEnemy`: the weighted draw over the enemy table, then the fight view. */
    method FindEnemy(draw: real)
      requires Valid()
      modifies this
      ensures Valid()
      ensures activeEnemy == Some(EnemyFoe(ENEMY_DATA[Pick(SpawnRates(), draw)]))
      ensures combatResult == None && view == Combat && state == old(state)
    {
      var idx := SelectWeighted(SpawnRates(), draw);
      EnemyTableWellFormed();
      assert ENEMY_DATA[idx] in ENEMY_DATA;
      StartCombat(EnemyFoe(ENEMY_DATA[idx]));
    }

    /** A click on a boss of the tower map: a challenge only if the gate allows it. */
    method ChallengeBoss(i: nat)
      requires Valid() && i < |BOSS_DATA|
      modifies this
      ensures Valid()
      ensures TowerMap.CanChallenge(old(state.maxBossDefeated), BOSS_DATA[i]) ==>
        activeEnemy == Some(BossFoe(BOSS_DATA[i])) && combatResult == None && view == Combat
      ensures !TowerMap.CanChallenge(old(state.maxBossDefeated), BOSS_DATA[i]) ==>
        activeEnemy == old(activeEnemy) && combatResult == old(combatResult) && view == old(view)
      ensures state == old(state)
    {
      var boss := BOSS_DATA[i];
      var isUnlocked := boss.id == 1 || state.maxBossDefeated >= boss.id - 1;
      var isDefeated := state.maxBossDefeated >= boss.id;
      if isUnlocked && !isDefeated {
        BossTableWellFormed();
        assert boss in BOSS_DATA;
        StartCombat(BossFoe(boss));
      }
    }

    /** `resolveCombat`: one fight against the active opponent. */
    method ResolveCombat(d: CombatDraws)
      requires Valid() && DrawsValid(d)
      modifies this
      ensures Valid()
      ensures old(state.hero.None? || activeEnemy.None?) ==>
        state == old(state) && view == old(view) && activeEnemy == old(activeEnemy) && combatResult == old(combatResult)
      ensures old(state.hero.Some? && activeEnemy.Some?) ==>
        var o := Resolve(old(state), old(activeEnemy.value), d);
        state == o.state && combatResult == Some(o.result) &&
        view == (if o.next.Some? then o.next.value else old(view)) && activeEnemy == old(activeEnemy)
      ensures state.maxBossDefeated >= old(state.maxBossDefeated)
    {
      if state.hero.None? || activeEnemy.None? {
        return;
      }
      var hero := state.hero.value;
      var foe := activeEnemy.value;
      var heroForce := CalculateTotalForce(hero);
      EquipmentBonusNonNegative(hero.equipment);
      var winProb := WinProbability(heroForce, foe.Force());
      var success := d.outcome < winProb;
      var loot: Option<Equipment> := None;
      var gold := 0;
      var exp := 0;
      var message := "";
      ghost var o := Resolve(state, foe, d);
      assert StateValid(o.state);
      assert heroForce == TotalForce(hero);
      if success {
        match foe
        case BossFoe(boss) =>
          gold := 50 + boss.id * 20;
          message := BossWinMessage(boss);
          state := BossVictory(state, boss);
          if boss.id == 10 {
            view := Win;
          }
          assert o.state == Logged(state, message) && o.result == CombatResult(success, loot, gold, exp, message);
        case EnemyFoe(enemy) =>
          exp := enemy.exp;
          gold := GoldRoll(enemy, d.gold);
          message := EnemyWinMessage(enemy);
          loot := DroppedLoot(enemy, d);
          state := EnemyVictory(state, enemy, gold, loot);
          if d.sanctuary < SANCTUARY_CHANCE {
            view := Sanctuary;
          }
          assert o.state == Logged(state, message) && o.result == CombatResult(success, loot, gold, exp, message);
      } else {
        match foe
        case BossFoe(_) =>
          message := BossLossMessage(foe.Name());
          state := BossDefeat(state);
          view := Dead;
          assert o.state == Logged(state, message) && o.result == CombatResult(success, loot, gold, exp, message);
        case EnemyFoe(_) =>
          message := EnemyLossMessage(foe.Name());
          if hero.lives - 1 <= 0 {
            view := Dead;
          }
          state := EnemyDefeat(state);
          assert o.state == Logged(state, message) && o.result == CombatResult(success, loot, gold, exp, message);
      }
      combatResult := Some(CombatResult(success, loot, gold, exp, message));
      state := Logged(state, message);
      assert state == o.state;
    }

    /** `handleSanctuaryReward`: the chosen reward, then back to the dungeon. */
    method HandleSanctuaryReward(kind: Reward)
      requires Valid()
      modifies this
      ensures state == SanctuaryReward(old(state), kind)
      ensures view == Dungeon && activeEnemy == old(activeEnemy) && combatResult == old(combatResult)
      ensures kind == ForceReward || old(state.hero.None?) || LifeOffered(old(state.hero.value)) ==> Valid()
    {
      state := SanctuaryReward(state, kind);
      view := Dungeon;
    }

    /** Closing the combat panel, or leaving the sanctuary without a reward. */
    method BackToDungeon()
      requires Valid()
      modifies this
      ensures Valid()
      ensures view == Dungeon
      ensures state == old(state) && activeEnemy == old(activeEnemy) && combatResult == old(combatResult)
    {
      view := Dungeon;
    }

    /** Opening the codex. */
    method OpenCodex()
      requires Valid()
      modifies this
      ensures Valid()
      ensures view == Codex
      ensures state == old(state) && activeEnemy == old(activeEnemy) && combatResult == old(combatResult)
    {
      view := Codex;
    }

    /** Closing the codex: back to the dungeon with a hero, to the summon view without. */
    method CloseCodex()
      requires Valid()
      modifies this
      ensures Valid()
      ensures view == if state.hero.Some? then Dungeon else Summon
      ensures state == old(state) && activeEnemy == old(activeEnemy) && combatResult == old(combatResult)
    {
      view := if state.hero.Some? then Dungeon else Summon;
    }
  }
}
