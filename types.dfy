/**
 * The record types of the game: rarities, equipment slots, items, hero
 * classes, heroes, enemies, bosses and the global game state.
 */
module Types {

  /** An optional value; `None` plays the part of `null`. */
  datatype Option<T> = None | Some(value: T)

  /** The five ordinal rarity tiers of equipment, from the weakest to the rarest. */
  datatype Rarity = Common | Uncommon | Rare | Epic | Legendary

  /** Position of a rarity on the ladder Common < Uncommon < Rare < Epic < Legendary. */
  function Rank(r: Rarity): (k: nat)
    ensures k < 5
  {
    match r
    case Common => 0
    case Uncommon => 1
    case Rare => 2
    case Epic => 3
    case Legendary => 4
  }

  /** The rarity at a given position of the ladder. */
  function RarityAt(k: nat): (r: Rarity)
    requires k < 5
    ensures Rank(r) == k
  {
    if k == 0 then Common
    else if k == 1 then Uncommon
    else if k == 2 then Rare
    else if k == 3 then Epic
    else Legendary
  }

  /** The ladder has exactly five tiers: ranking is a bijection onto 0..4. */
  lemma RankBijective(a: Rarity, b: Rarity)
    ensures Rank(a) == Rank(b) <==> a == b
    ensures RarityAt(Rank(a)) == a
  {
  }

  /** The string value of each rarity, as the enum declares it. */
  function RarityName(r: Rarity): string
  {
    match r
    case Common => "Common"
    case Uncommon => "Uncommon"
    case Rare => "Rare"
    case Epic => "Epic"
    case Legendary => "Legendary"
  }

  /** The four equipment slots. */
  datatype SlotType = Weapon | Armor | Accessory | Relic

  function SlotName(s: SlotType): string
  {
    match s
    case Weapon => "Weapon"
    case Armor => "Armor"
    case Accessory => "Accessory"
    case Relic => "Relic"
  }

  /** An item of equipment. */
  datatype Equipment = Equipment(id: string, name: string, slot: SlotType, rarity: Rarity, forceBonus: int)

  /** A summonable hero class, with its base-force roll range and its draw weight. */
  datatype CharacterClass = CharacterClass(id: int, name: string, minForce: int, maxForce: int, probability: real)

  /** What a hero wears: one optional item per slot, and never more than one. */
  datatype Loadout = Loadout(weapon: Option<Equipment>, armor: Option<Equipment>,
                             accessory: Option<Equipment>, relic: Option<Equipment>)
  {
    /** `equipment[slot]` */
    function Get(slot: SlotType): Option<Equipment>
    {
      match slot
      case Weapon => weapon
      case Armor => armor
      case Accessory => accessory
      case Relic => relic
    }

    /** `equipment[slot] = item`: the slot holds the item and every other slot is unchanged. */
    function Set(slot: SlotType, item: Option<Equipment>): (r: Loadout)
      ensures r.Get(slot) == item
      ensures forall s :: s != slot ==> r.Get(s) == Get(s)
    {
      match slot
      case Weapon => this.(weapon := item)
      case Armor => this.(armor := item)
      case Accessory => this.(accessory := item)
      case Relic => this.(relic := item)
    }
  }

  /** `{ Weapon: null, Armor: null, Accessory: null, Relic: null }` */
  const EMPTY_LOADOUT: Loadout := Loadout(None, None, None, None)

  datatype Hero = Hero(
    name: string,
    heroClass: CharacterClass,
    baseForce: int,
    exp: int,
    level: nat,
    gold: int,
    lives: int,
    isMiserable: bool,
    equipment: Loadout)

  /** A regular enemy; its gold reward is drawn from the closed range `goldRange`. */
  datatype Enemy = Enemy(
    id: int,
    name: string,
    force: int,
    spawnRate: real,
    exp: int,
    goldRange: (int, int),
    lootChance: real,
    statBonus: int)

  /** A tower boss; `unlocksBossId` is `None` for the last boss of the ladder. */
  datatype Boss = Boss(id: int, name: string, force: int, keyName: string, unlocksBossId: Option<int>)

  /** The single game-state record. */
  datatype GameState = GameState(
    hero: Option<Hero>,
    unlockedKeys: seq<string>,
    maxBossDefeated: int,
    isDead: bool,
    gameWon: bool,
    logs: seq<string>)
}
