# Tower of the Cursed — a verified model of the game rules

Tower of the Cursed is a small browser game. The player summons a hero of a
randomly drawn class and sends them into a dungeon. There the hero fights
regular enemies for experience, gold and equipment, visits a sanctuary now and
then, and climbs a ladder of ten bosses, each of which gives up a key. The game
is won by defeating the tenth boss, the Void Entity. A boss kills the hero
outright, while a regular enemy takes one of the hero's two lives.

This project models the rules of the game in Dafny and proves properties of
that model. It has one module per source file:

- `Types` (`types.dfy`, from `types.ts`): the rarity ladder, the equipment
  slots, items, hero classes, heroes, enemies, bosses and the game-state record.
  The hero's equipment is a `Loadout` with one optional item per slot.
- `Constants` (`constants.dfy`, from `constants.ts`): the enemy, boss and class
  tables, the rarity bonuses and the slot list, as constant sequences. Lemmas
  state the facts the game depends on:
  - the boss ladder is ordered and linked;
  - enemy spawn weights add up to 0.93;
  - the running class weights pass 1 at "Warlord";
  - every table entry is well formed.
- `GameLogic` (`game_logic.dfy`, from `gameLogic.ts`), the combat and
  progression engine:
  - `CalculateTotalForce` and `HandleLevelUp` keep their loops and are proved
    against the specification functions `EquipmentBonus` and `LevelUp`;
  - the win probability, the experience ladder, loot generation and the rarity
    labels are pure functions.
- `TowerMap` (`tower_map.dfy`, from `components/TowerMap.tsx`): the
  unlocked/defeated predicates and the click guard of the boss ladder.
- `App` (`app.dfy`, from `App.tsx`), the application:
  - the class `Game` holds the four pieces of component state: game state,
    current view, active opponent and last combat result;
  - its methods are the actions: summon, find an enemy, challenge a boss,
    resolve a fight, take a sanctuary reward, and open or close views;
  - each `setGameState(prev => ...)` updater is a pure function on `GameState`
    (for example `Summoned`, `BossVictory`, `EnemyVictory`, `EnemyDefeat`,
    `SanctuaryReward` and `WithLog`), and the methods apply those functions;
  - `Resolve` bundles the four fight branches into one function, giving the new
    state, the reported result and the view the fight leads to;
  - both weighted draws share the `SelectWeighted` loop, which is proved equal
    to the reference function `Pick`.

Every `Math.random()` draw is a `real` parameter in [0, 1), named by `IsDraw`.
The id of a dropped item is a string parameter. Integer division by a positive
constant in Dafny equals JavaScript's `Math.floor` of the quotient for the
non-negative values that occur; `ScaledIndex` models `Math.floor(u * n)` for a
draw.

Some of what the code does is easy to miss when reading it, and the model
states it as written:

- The enemy weights add up to 0.93, not 1. A draw above 0.93 falls back to the
  first enemy ("Wild Rat"); see `App.EnemyFallback`.
- The class weights add up to 1.01, and their running sum passes 1 before
  the last class. So "Dungeon Chosen" can never be summoned; see
  `App.DungeonChosenNeverDrawn`.
- The tower map gates bosses by the `maxBossDefeated` watermark alone. The
  unlocked keys play no part.
- Every boss victory sets `gameWon` to whether that boss was the tenth.
- `GameState.collection` is declared in `types.ts` but never initialised or
  updated, so the model has no such field. There is no legendary-class summon
  in the code.

## Model

| member | source | states |
|---|---|---|
| Types.Rank | types.ts:2-8 | each rarity has a position below 5 on the ladder |
| Types.RarityAt | types.ts:2-8 | the rarity at a position has that position |
| Types.RankBijective | types.ts:2-8 | there are exactly five tiers: ranking is a bijection onto 0..4 |
| Types.RarityName | types.ts:3-7 | definition: the display string of each rarity, "Common" to "Legendary" |
| Types.SlotName | types.ts:10 | definition: the display string of each slot, "Weapon", "Armor", "Accessory", "Relic" |
| Types.Loadout.Get | gameLogic.ts:8 | definition: the `equipment[slot]` read, the item in the named slot if any |
| Types.Loadout.Set | types.ts:37-39 | assigning a slot changes that slot only, so each slot holds at most one item |
| Constants.SpawnRates | constants.ts:4-25 | one weight per enemy, the enemy's spawn rate, in table order |
| Constants.ClassProbabilities | constants.ts:40-56 | one weight per class, the class's probability, in table order |
| Constants.RunningSumMonotone | App.tsx:49-52 | with non-negative weights the accumulated weight never decreases |
| Constants.RarityBonus | constants.ts:58-64 | every bonus lies in 1..8, and only Legendary gives 8 |
| Constants.RarityBonusIncreasing | constants.ts:58-64 | bonuses are at least 1, strictly increase along the ladder, and differ between any two rarities |
| Constants.BossLadder | constants.ts:27-38 | ten bosses with ids 1..10 in order; each links to id + 1; the last links to nothing |
| Constants.BossForceIncreasing | constants.ts:28-37 | a later boss is strictly stronger |
| Constants.BossKeysDistinct | constants.ts:28-37 | no two bosses share a key name |
| Constants.EnemySpawnTotal | constants.ts:4-25 | the twenty spawn rates add up to 0.93 |
| Constants.ClassRunningSums | constants.ts:40-56 | running class weight is 0.995 before "Warlord" and 1.003 after it; the last class has id 15 |
| Constants.WeightsPositive | constants.ts:4-56 | every spawn rate and every class probability is positive |
| Constants.ClassTableWellFormed | constants.ts:41-55 | every class has 140 <= minForce <= maxForce <= 390 |
| Constants.EnemyTableWellFormed | constants.ts:5-24 | every enemy has a gold range 1 <= min <= max, positive force, exp and stat bonus, a loot chance in (0, 1], and a positive spawn rate |
| Constants.BossTableWellFormed | constants.ts:28-37 | every boss has an id in 1..10 and positive force |
| Constants.SlotNamesComplete | constants.ts:66 | the slot list has four entries, no duplicates, and contains every slot |
| GameLogic.ScaledIndex | gameLogic.ts:39 | `Math.floor(u * n)` for a draw is an index below n, and the floor of u * n |
| GameLogic.BonusOverAllSlots | gameLogic.ts:7-10 | accumulating over the slot list adds every slot's bonus exactly once |
| GameLogic.EquipmentBonusNonNegative | gameLogic.ts:5-12 | items that fit their slots never lower the total force |
| GameLogic.TotalForce | gameLogic.ts:5-12 | base force plus the bonus accumulated over the slot list; never below the base force for fitting items; the base force with empty slots |
| GameLogic.CalculateTotalForce | gameLogic.ts:5-12 | total force is base force plus the bonuses of the non-empty slots, equal to `TotalForce`; with all slots empty it is the base force |
| GameLogic.Ratio | gameLogic.ts:15 | the raw odds r satisfy r·(f + e) = f, and lie in [0, 1] for non-negative forces |
| GameLogic.WinProbability | gameLogic.ts:14-16 | for a positive force sum the odds lie in [0.01, 0.99]: f/(f+e) when that ratio is in range, 0.01 below it and 0.99 above it |
| GameLogic.EqualForcesEvenOdds | gameLogic.ts:15 | equal positive forces give exactly 0.5 |
| GameLogic.RatioMonotone | gameLogic.ts:15 | the raw ratio grows with the hero's force |
| GameLogic.WinProbabilityMonotone | gameLogic.ts:14-16 | more hero force never lowers the odds against the same enemy |
| GameLogic.WinProbabilityFavours | gameLogic.ts:14-16 | the odds are above 0.5 exactly when the hero is stronger, and exactly 0.5 when the forces are equal |
| GameLogic.RequiredExp | gameLogic.ts:22-24 | from level 1 on, at least 20 experience is needed |
| GameLogic.RequiredExpIncreasing | gameLogic.ts:22-24 | the requirement is strictly increasing in the level |
| GameLogic.ExpSpanClosedForm | gameLogic.ts:79-85 | the experience spent going from level a to level b is 5(b - a)(a + b + 1) |
| GameLogic.ExpSpanSplit | gameLogic.ts:79-85 | the experience spent over two consecutive stretches of levels adds up |
| GameLogic.ExpSpanCoversFirst | gameLogic.ts:79-85 | gaining a level costs at least the current level's requirement |
| GameLogic.Climb | gameLogic.ts:79-85 | the loop ends with exp below the next requirement; all experience is accounted for; +15 base force per level; nothing else changes |
| GameLogic.LevelUp | gameLogic.ts:74-92 | the loop's promises, plus: lives become 2 exactly when a level was gained; no gain leaves the hero unchanged; name, class, gold and equipment are kept |
| GameLogic.LevelUpUnique | gameLogic.ts:79-85 | the level and experience reached are the only ones that account for all experience and stay below the next requirement |
| GameLogic.LevelUpExactlyOnce | gameLogic.ts:74-92 | level 1 with 20 exp becomes level 2 with 0 exp and 2 lives |
| GameLogic.LevelUpTwice | gameLogic.ts:74-92 | one reward can raise several levels: 55 exp at level 1 gives level 3 with 5 exp |
| GameLogic.HandleLevelUp | gameLogic.ts:74-92 | the while loop computes exactly `LevelUp` |
| GameLogic.LootShift | gameLogic.ts:28 | the force shift is enemyForce / 500 below force 75 and exactly 0.15 from force 75 on, so never above 0.15 |
| GameLogic.RarityOfRoll | gameLogic.ts:33-37 | rolls below 0.015, 0.06, 0.18, 0.45 give Legendary, Epic, Rare, Uncommon; otherwise Common (each band in both directions) |
| GameLogic.RarityOfRollAntitone | gameLogic.ts:33-37 | a lower roll never gives a less rare tier |
| GameLogic.LootRarity | gameLogic.ts:27-37 | the force shift raises the thresholds: Legendary exactly below 0.015 + shift, Epic exactly in [0.015, 0.06) + shift, Rare exactly in [0.06, 0.18) + shift, Uncommon exactly in [0.18, 0.45) + shift, Common exactly from 0.45 + shift; with no shift it is the plain roll ladder |
| GameLogic.LootRarityMonotone | gameLogic.ts:27-37 | for the same draw, a stronger enemy never gives a less rare item |
| GameLogic.LootRarityCapped | gameLogic.ts:28-37 | every enemy of force 75 or more rolls like force 75 |
| GameLogic.MakeItem | gameLogic.ts:40-48 | the item has the given rarity and id, the bonus of its rarity, and is named "rarity slot" |
| GameLogic.GenerateLoot | gameLogic.ts:26-49 | always an item with the given id: rarity from the shifted draw, slot from the slot draw, consistent bonus and name |
| GameLogic.HighTierRarity | gameLogic.ts:55-60 | Rare at worst; Legendary below 0.10; Epic from 0.10 up to 0.40 |
| GameLogic.GenerateHighTierLoot | gameLogic.ts:54-72 | the rarity is the roll's high-tier rarity, so only Rare, Epic or Legendary, with at least Rare's bonus; the slot from the slot draw; named "rarity slot"; the given id |
| GameLogic.RarityFromProb | gameLogic.ts:94-101 | p * 100 below 1.5, 3, 6, 10 gives Legendary, Epic, Rare, Uncommon; otherwise Common (each band in both directions) |
| GameLogic.RarityFromProbAntitone | gameLogic.ts:94-101 | a scarcer weight never gets a commoner label |
| GameLogic.LegendaryEnemies | gameLogic.ts:94-96 | among the enemies only the one with id 20 is labelled Legendary |
| TowerMap.FirstBossAlwaysUnlocked | components/TowerMap.tsx:24 | boss 1 is unlocked for any watermark |
| TowerMap.DefeatedIsUnlocked | components/TowerMap.tsx:24-25 | a defeated boss is unlocked |
| TowerMap.UnlockMonotone | components/TowerMap.tsx:24-25 | raising the watermark never locks or un-defeats a boss |
| TowerMap.IsUnlocked | components/TowerMap.tsx:24 | definition: boss 1, or a boss whose id is at most the watermark plus 1 |
| TowerMap.IsDefeated | components/TowerMap.tsx:25 | definition: the watermark has reached the boss's id |
| TowerMap.CanChallenge | components/TowerMap.tsx:37 | definition: unlocked and not defeated |
| TowerMap.ChallengeIsNext | components/TowerMap.tsx:24-37 | from a non-negative watermark a boss can be challenged exactly when its id is the watermark plus 1 |
| TowerMap.ExactlyOneChallengeable | components/TowerMap.tsx:23-37 | with a watermark in 0..9 exactly one boss can be challenged, the one with the next id; at 10 or more none can |
| App.WithLog | App.tsx:30-35 | the new message comes first, the previous messages follow in order, and the log never exceeds 50 |
| App.WithLogDropsOnlyOldest | App.tsx:33 | a short log loses nothing; a full log loses only its oldest message |
| App.WithLogNewestFirst | App.tsx:30-35 | of two messages the later one comes first |
| App.Pick | App.tsx:47-56 | the weighted pick over a whole, non-empty table is an index of that table |
| App.PickFrom | App.tsx:50-56 | the first index from i on whose running weight reaches the draw, or 0 when none does |
| App.PickIsFirstReaching | App.tsx:47-56 | the weighted draw picks the first entry whose running weight is at least the draw, and entry 0 when none is |
| App.SelectWeighted | App.tsx:176-185 | the `for` loop with `break` computes exactly `Pick` |
| App.EnemyFallback | App.tsx:176-185 | every draw above 0.93 finds the first enemy, "Wild Rat" |
| App.EnemyNoFallbackBelow | App.tsx:176-185 | a draw of 0.93 or less finds a real match |
| App.DungeonChosenNeverDrawn | App.tsx:47-56 | for every draw in [0, 1) the class picked is one of the first fourteen, so class 15 is never summoned |
| App.WarlordDrawnAbove | App.tsx:47-56 | "Warlord" is summoned exactly for the draws above 0.995 |
| App.SummonCost | App.tsx:38 | a summon costs 0 or 10, and 10 exactly for a normal summon while a hero exists |
| App.SummonRejected | App.tsx:41 | definition: a normal summon by a living hero who cannot pay the cost |
| App.SummonRejectedWhen | App.tsx:38-44 | a summon is refused exactly for a living hero with less than 10 gold outside the pact |
| App.RollForce | App.tsx:58 | the roll is an integer in [minForce, maxForce] |
| App.SummonOffered | App.tsx:231-273 | definition: the free first summon, "Replace Hero" for a living hero, "New Summon" on the death screen with 10 gold, the pact there below 10 gold |
| App.SummonedBaseForce | App.tsx:59-63 | normal base force is floor(roll / 10); the pact gives 2 for rolls below 60 and floor(roll / 20) from 60 on, so max(2, floor(floor(roll / 10) / 2)) |
| App.SummonedForceRange | App.tsx:58-63 | with the class table, normal heroes get 14..39 base force and pact heroes 7..19 |
| App.FreshHero | App.tsx:65-75 | name by pact, the class and base force given, level 1, 0 exp, 2 lives, empty slots; gold 0 for a first hero, the old gold less the cost when it covers the cost, and 0 when it does not |
| App.Summoned | App.tsx:65-77 | fresh hero named "The Wretched" by a pact and "Dungeon Seeker" otherwise, at level 1, 0 exp, 2 lives, empty slots; gold max(0, gold - cost), or 0 without a previous hero; alive; keys, watermark, win flag and log kept; validity kept |
| App.SummonMessage | App.tsx:79 | definition: the pact message, or "Summoned a <class>. Base Force: <n>" |
| App.SummonOutcome | App.tsx:37-80 | a refusal only adds a log line; otherwise the `Summoned` state for the drawn class and the rolled base force, with the summon message logged; a summon the interface offers to a hero with non-negative gold is charged in full, never clamped; keys and watermark kept; validity kept |
| App.ResummonCost | App.tsx:38-71 | resummoning a hero with 10 gold or more costs exactly 10; the pact costs nothing |
| App.AddKey | App.tsx:109 | the key is present afterwards, nothing else is added, old keys keep their order, no duplicate is created, and a present key changes nothing |
| App.BossGold | App.tsx:105 | 50 plus a multiple of 20, between 70 and 250 for the ten bosses |
| App.BossVictory | App.tsx:105-119 | +50 + 20·id gold; the key added if absent; watermark max(old, id), never lower; gameWon exactly for boss 10; validity kept |
| App.BossKeyIdempotent | App.tsx:109-110 | defeating the same boss again changes neither the keys nor the watermark |
| App.BossDefeat | App.tsx:155 | the hero dies with their lives unchanged; nothing else changes |
| App.GoldRoll | App.tsx:124 | the gold reward lies in the enemy's closed gold range |
| App.EquipIfBetter | App.tsx:137-142 | the item takes its slot exactly when the slot is empty or the item is strictly stronger; other slots are kept; fitting loadouts stay fitting |
| App.EquipNeverWeakens | App.tsx:137-142 | no slot's bonus and not the total bonus ever drops |
| App.EquipTieKeepsCurrent | App.tsx:139 | an item no stronger than the current one is discarded; a stronger one is equipped |
| App.Rewarded | App.tsx:133-142 | exp, gold and stat bonus added, equip-if-better for the loot, every other field kept |
| App.EnemyVictory | App.tsx:131-145 | gold added; exp and the level-up balance; +statBonus and +15 per level; lives 2 on a level gain; equip-if-better; name, class and pact flag kept; keys, watermark, death and win flags and log kept; validity kept |
| App.EnemyDefeat | App.tsx:159-167 | one life lost; at zero lives are 0 and the hero dies; nothing else about the hero changes; validity kept |
| App.LossAsymmetry | App.tsx:153-168 | with two lives a boss loss kills the hero keeping both lives, while an enemy loss leaves them alive with one |
| App.LastLifeLost | App.tsx:161-164 | losing to an enemy on the last life is death with 0 lives |
| App.DroppedLoot | App.tsx:127-129 | loot drops exactly when the loot draw is below the enemy's loot chance, and is then the generated item |
| App.BossWinMessage | App.tsx:106 | definition: "You defeated the <boss>! Obtained <key>." |
| App.BossLossMessage | App.tsx:154 | definition: "The <name> crushed you. Instant death." |
| App.EnemyWinMessage | App.tsx:125 | definition: "Victory against <enemy>!" |
| App.EnemyLossMessage | App.tsx:158 | definition: "You were defeated by <name>. Lost 1 life." |
| App.ResolveBoss | App.tsx:102-156 | win: the `BossVictory` state with the win message logged, so key, watermark >= id, boss gold paid, Win view and gameWon exactly for boss 10 and no view change for other bosses; loss: the `BossDefeat` state logged, death, hero unchanged, Dead view; keys and watermark never lost |
| App.ResolveEnemy | App.tsx:121-168 | win: the `EnemyVictory` state for the rolled gold and the dropped loot, with the win message logged, so the exp, gold, stat bonus, equip and level-up all apply; Sanctuary view exactly when the draw is below the sanctuary chance, else no view change; loss: the `EnemyDefeat` state logged, one life lost, Dead view exactly on the last life, else no view change; keys and watermark kept |
| App.Wins | App.tsx:91-93 | definition: the outcome draw is below the win probability of the hero's total force against the opponent's |
| App.Resolve | App.tsx:88-173 | success is the draw below the win probability; the message logged; watermark never lower, keys never lost; Win view exactly for a victory over boss 10; Dead view only on death; sanctuary only after an enemy victory; validity kept |
| App.FinalBossWins | App.tsx:110-112 | defeating boss 10 wins the game and shows the Win view |
| App.SanctuaryReward | App.tsx:189-199 | force: +5 base force; life: lives min(2, lives + 1) and 20 gold paid, nothing else about the hero changes; keys, watermark, death and win flags kept; validity kept when the reward was offered |
| App.LifeOffered | components/SanctuaryPanel.tsx:32 | definition: the life button is enabled only with at least 20 gold |
| App.LifeRewardBounded | App.tsx:197 | a life taken when offered leaves gold non-negative and lives in 1..2 |
| App.Game.constructor | App.tsx:17-28 | no hero, no keys, watermark 0, the welcome message, the summon view |
| App.Game.AddLog | App.tsx:30-35 | only the log changes, by `WithLog` |
| App.Game.SummonHero | App.tsx:37-80 | the state becomes `SummonOutcome`; the view becomes dungeon unless refused; validity kept |
| App.Game.StartCombat | App.tsx:82-86 | the opponent is set, the result cleared, the combat view shown |
| App.Game.FindEnemy | App.tsx:175-187 | the opponent is the enemy `Pick` selects from the spawn weights |
| App.Game.ChallengeBoss | components/TowerMap.tsx:37 | a click starts the fight exactly when the boss is unlocked and not defeated; otherwise nothing changes |
| App.Game.ResolveCombat | App.tsx:88-173 | without a hero or an opponent nothing changes; otherwise state, result and view are those of `Resolve`; the watermark never decreases |
| App.Game.HandleSanctuaryReward | App.tsx:189-201 | the state becomes `SanctuaryReward` and the view dungeon |
| App.Game.BackToDungeon | App.tsx:250-254 | closing the combat panel or leaving the sanctuary shows the dungeon and changes nothing else |
| App.Game.OpenCodex | App.tsx:218-232 | the codex view, nothing else changes |
| App.Game.CloseCodex | App.tsx:258 | back to the dungeon with a hero, to the summon view without |

## Left out

- Rendering, styling and colours: the JSX of every component, the display-only
  arithmetic of the panels, and the colour fields of `getRarityFromProb`.
  Only its label is modelled.
- `setTimeout` pacing (App.tsx:112, 149, 156, 163): the delayed view change is
  set at once to its target view, as part of the same step.
- The restart through `window.location.reload` (App.tsx:208): it is a page
  reload back to the initial state, which `App.Game.constructor` describes.
- `Math.random()` itself: every draw is a parameter in [0, 1).
- Item id generation with `Math.random().toString(36)` (gameLogic.ts:43): the
  id is a string parameter.
- IEEE floating point: probabilities and thresholds are exact reals. So
  `0.015 * 100 < 1.5` style label boundaries and sums such as 0.93 are exact
  here, and may differ by rounding in JavaScript.
- GameLogic.WinProbability: requires a positive force sum, because for 0 against
  0 JavaScript computes NaN and the clamp does not apply.
- React's asynchronous `setState` batching, and the `addLog` call made inside
  the sanctuary updater (App.tsx:193, 196): every action is one atomic step,
  and the sanctuary message is appended in that same step.
- The in-place write `newHero.equipment[loot.slot] = loot` (App.tsx:140) goes
  through a shallow copy, so in JavaScript it also mutates the previous
  state's equipment object. The model builds a new `Loadout` value, so this
  aliasing is not captured.
- The `collection` field of `GameState` (types.ts:68-70): it is never
  initialised or updated.
- The optional `isMiserable` field is a plain boolean. An absent value is
  `false`.
- The Header, the codex tables and the rest of HeroCard only display state and
  are not modelled. HeroCard's "Replace Hero" button (components/HeroCard.tsx:98-105)
  calls `summonHero()`, which `App.Game.SummonHero` models.
- Game.SummonHero: like `summonHero`, it accepts summons the interface never
  offers. A dead hero with 5 gold may summon normally, and the new hero's gold
  is clamped to 0. The pact is accepted at any gold. The buttons' guards
  (App.tsx:266-273) are the predicate `App.SummonOffered`, and only
  `App.SummonOutcome` states what happens under them.
