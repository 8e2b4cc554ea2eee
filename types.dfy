/**
 * The records the game passes around: tiles and their layers, world
 * mutations, inventory slots and players.  TILE_SIZE is 40 world units.
 */
module Types {
  import opened Wrappers

  /** The suffix of a wall or door name: `_t`, `_r`, `_b`, `_l`. */
  datatype Side = Top | Right | Bottom | Left

  /** The object layer of a tile, named in the game as 'none', 'tree',
      'stone', 'big_rock', 'high_grass', 'workbench', 'wall_wood_<s>' and
      'door_wood_<s>'. */
  datatype ObjectKind =
    | NoObject
    | Tree
    | Stone
    | BigRock
    | HighGrass
    | Workbench
    | Wall(side: Side)
    | Door(side: Side)

  datatype Terrain = Grass | Water

  /** The floor layer: 'none' or 'wood'. */
  datatype Floor = NoFloor | Wood

  /** One tile: terrain, floor and object layers and a stack of item names
      (the last element is the top). */
  datatype Tile = Tile(terrain: Terrain, floor: Floor, obj: ObjectKind, items: seq<string>)

  /** What an absent key stands for, and what a freshly materialised tile is. */
  const PLAIN: Tile := Tile(Grass, NoFloor, NoObject, [])

  /** Tile coordinates; the source's key is the string `${x},${y}`. */
  type Coord = (int, int)

  /** The `action` of a world update, with its `data` where the action reads
      one.  `PlaceItem(Some(""))` carries JavaScript's falsy empty string. */
  datatype Action =
    | DestroyObject
    | PlaceItem(item: Option<string>)
    | PickupItem
    | PlaceObject(obj: Option<ObjectKind>)
    | PlaceFloor
    | DestroyFloor
    | OtherAction

  datatype Update = Update(x: int, y: int, action: Action)

  /** An inventory stack: an item name and a count. */
  datatype Item = Item(kind: string, count: int)

  /** An inventory slot: a stack or `null`. */
  type Slot = Option<Item>

  datatype Equipment = Equipment(head: Option<string>, body: Option<string>, legs: Option<string>)

  datatype Direction = Front | Back | Leftward | Rightward

  datatype Stats = Stats(
    hp: real, maxHp: real, hunger: real, maxHunger: real, mana: real, maxMana: real,
    energy: real, maxEnergy: real, xp: real, maxXp: real, level: real)

  datatype Player = Player(
    id: string, x: real, y: real, color: string, nickname: string, direction: Direction,
    inventory: seq<Slot>, equipment: Equipment, stats: Stats)

  /** The initial statistics the server gives a joining player and the
      offline hero gets. */
  const START_STATS: Stats := Stats(20.0, 20.0, 20.0, 20.0, 20.0, 20.0, 20.0, 20.0, 0.0, 100.0, 1.0)

  const NO_EQUIPMENT: Equipment := Equipment(None, None, None)

  /** n empty slots. */
  function EmptySlots(n: nat): (s: seq<Slot>)
    ensures |s| == n && forall i :: 0 <= i < n ==> s[i] == None
  {
    if n == 0 then [] else EmptySlots(n - 1) + [None]
  }

  /** A fresh inventory: 36 empty slots. */
  const EMPTY_INVENTORY: seq<Slot> := EmptySlots(36)

  /** A movement message from a client to the server. */
  datatype MoveData = MoveData(x: real, y: real, direction: Direction, sprint: bool)

  /** `s || d`: the empty string and a missing value are falsy. */
  function OrDefault(s: Option<string>, d: string): (r: string)
    ensures s.Some? && s.value != "" ==> r == s.value
    ensures (s.None? || s.value == "") ==> r == d
  {
    if s.Some? && s.value != "" then s.value else d
  }
}
