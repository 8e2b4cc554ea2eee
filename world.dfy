/**
 * The client's sparse tile store (world.ts): a map from tile coordinates to
 * tiles where an absent key means plain grass, the mutations that peers
 * broadcast, item stacks, the neighbour search for dropping an item and the
 * placement guards.
 */
module World {
  import opened Wrappers
  import opened Types

  type WorldMap = map<Coord, Tile>

  // ---------------------------------------------------------------------
  // Queries

  /** `getTileData`: the stored tile, or plain grass for an absent key. */
  function TileAt(w: WorldMap, x: int, y: int): (t: Tile)
    ensures (x, y) in w ==> t == w[(x, y)]
    ensures (x, y) !in w ==> t == PLAIN
  {
    if (x, y) in w then w[(x, y)] else PLAIN
  }

  /** What `getInteractionType` names: the object, else 'floor_wood', else
      'water', else 'grass'. */
  datatype Target = ObjectTarget(kind: ObjectKind) | FloorWood | WaterTarget | GrassTarget

  /** `getInteractionType` on a tile: the object wins over the floor, the floor
      over water, water over grass. */
  function InteractionType(t: Tile): (r: Target)
    ensures r.ObjectTarget? <==> t.obj != NoObject
    ensures r.ObjectTarget? ==> r.kind == t.obj
    ensures r == FloorWood <==> t.obj == NoObject && t.floor != NoFloor
    ensures r == WaterTarget <==> t.obj == NoObject && t.floor == NoFloor && t.terrain == Water
    ensures r == GrassTarget <==> t.obj == NoObject && t.floor == NoFloor && t.terrain != Water
  {
    if t.obj != NoObject then ObjectTarget(t.obj)
    else if t.floor != NoFloor then FloorWood
    else if t.terrain == Water then WaterTarget
    else GrassTarget
  }

  /** The tile containing a world position: `Math.floor(v / TILE_SIZE)`. */
  function TileOf(v: real): int
  {
    (v / 40.0).Floor
  }

  /** `tryPickupItem(worldX, worldY)`: the top item of the tile under the
      point, left in place; null for an absent tile or an empty stack. */
  function PeekItem(w: WorldMap, wx: real, wy: real): (r: Option<string>)
    ensures r.Some? <==> |TileAt(w, TileOf(wx), TileOf(wy)).items| > 0
    ensures r.Some? ==> var s := TileAt(w, TileOf(wx), TileOf(wy)).items; r.value == s[|s| - 1]
  {
    var t := TileAt(w, TileOf(wx), TileOf(wy));
    if |t.items| > 0 then Some(t.items[|t.items| - 1]) else None
  }

  // ---------------------------------------------------------------------
  // Mutations as functions of the old map

  /** `destroyTileObject` on one tile: the object if there is one, else the floor. */
  function DestroyLayer(t: Tile): Tile
  {
    if t.obj != NoObject then t.(obj := NoObject)
    else if t.floor != NoFloor then t.(floor := NoFloor)
    else t
  }

  /** `destroyTileObject(x, y)`: nothing for an absent key. */
  function Destroyed(w: WorldMap, x: int, y: int): WorldMap
  {
    if (x, y) !in w then w else w[(x, y) := DestroyLayer(w[(x, y)])]
  }

  /** The effect of one update on an (already materialised) tile; only the
      layer the action names is touched. */
  function Effect(t: Tile, a: Action): Tile
  {
    match a
    case DestroyObject => t.(obj := NoObject)
    case PlaceItem(d) => if d.Some? && d.value != "" then t.(items := t.items + [d.value]) else t
    case PickupItem => if |t.items| > 0 then t.(items := t.items[..|t.items| - 1]) else t
    case PlaceObject(k) => if k.Some? then t.(obj := k.value) else t
    case PlaceFloor => t.(floor := Wood)
    case DestroyFloor => t.(floor := NoFloor)
    case OtherAction => t
  }

  /** `applyWorldUpdate(u)`: materialise the tile, then apply the effect. */
  function Applied(w: WorldMap, u: Update): WorldMap
  {
    w[(u.x, u.y) := Effect(TileAt(w, u.x, u.y), u.action)]
  }

  /** Updates applied in order, as the late-join replay does. */
  function AppliedAll(w: WorldMap, us: seq<Update>): WorldMap
    decreases |us|
  {
    if us == [] then w else AppliedAll(Applied(w, us[0]), us[1..])
  }

  /** The tiles a sequence of updates names. */
  function Touched(us: seq<Update>): set<Coord>
  {
    set i | 0 <= i < |us| :: (us[i].x, us[i].y)
  }

  /** A replay materialises exactly the tiles its updates name and leaves
      every other tile as it was. */
  lemma {:induction false} AppliedAllFrame(w: WorldMap, us: seq<Update>)
    ensures AppliedAll(w, us).Keys == w.Keys + Touched(us)
    ensures forall c :: c in w && c !in Touched(us) ==> AppliedAll(w, us)[c] == w[c]
    decreases |us|
  {
    if us != [] {
      AppliedFrame(w, us[0]);
      AppliedAllFrame(Applied(w, us[0]), us[1..]);
      assert Touched(us) == {(us[0].x, us[0].y)} + Touched(us[1..]) by {
        forall c | c in Touched(us) ensures c in {(us[0].x, us[0].y)} + Touched(us[1..]) {
          var i :| 0 <= i < |us| && c == (us[i].x, us[i].y);
          if i > 0 {
            assert us[1..][i - 1] == us[i];
          }
        }
        forall c | c in Touched(us[1..]) ensures c in Touched(us) {
          var i :| 0 <= i < |us[1..]| && c == (us[1..][i].x, us[1..][i].y);
          assert us[1..][i] == us[i + 1];
        }
      }
    }
  }

  /** `pickupItemAt(x, y)`: pops the top item.  `pop() || null` turns a popped
      empty string into null, though the pop still happens. */
  function PickedUp(w: WorldMap, x: int, y: int): (Option<string>, WorldMap)
  {
    if (x, y) in w && |w[(x, y)].items| > 0 then
      var s := w[(x, y)].items;
      var top := s[|s| - 1];
      (if top != "" then Some(top) else None, w[(x, y) := w[(x, y)].(items := s[..|s| - 1])])
    else (None, w)
  }

  /** The tile after one more item is pushed on its stack (materialising it). */
  function Pushed(w: WorldMap, x: int, y: int, item: string): WorldMap
  {
    var t := TileAt(w, x, y);
    w[(x, y) := t.(items := t.items + [item])]
  }

  /** The guard of `tryPlaceItemAt`: object none or high grass, not water, no items. */
  predicate CanDropAt(w: WorldMap, x: int, y: int)
  {
    var t := TileAt(w, x, y);
    (t.obj == NoObject || t.obj == HighGrass) && t.terrain != Water && |t.items| == 0
  }

  /** The neighbour order of `dropItemOnGround`: N, NE, E, SE, S, SW, W, NW. */
  const NEIGHBOURS: seq<Coord> := [(0, -1), (1, -1), (1, 0), (1, 1), (0, 1), (-1, 1), (-1, 0), (-1, -1)]

  /** Neighbour j of the origin in that order. */
  function Neighbour(ox: int, oy: int, j: nat): Coord
    requires j < 8
  {
    (ox + NEIGHBOURS[j].0, oy + NEIGHBOURS[j].1)
  }

  /** The position in the order of the first placeable neighbour from k on;
      8 when there is none. */
  function FreeIndex(w: WorldMap, ox: int, oy: int, k: nat): (j: nat)
    requires k <= 8
    ensures k <= j <= 8
    decreases 8 - k
  {
    if k == 8 then 8
    else if CanDropAt(w, Neighbour(ox, oy, k).0, Neighbour(ox, oy, k).1) then k
    else FreeIndex(w, ox, oy, k + 1)
  }

  /** Where `dropItemOnGround` puts the item. */
  function DropTarget(w: WorldMap, ox: int, oy: int): Coord
  {
    if CanDropAt(w, ox, oy) then (ox, oy)
    else
      var j := FreeIndex(w, ox, oy, 0);
      if j == 8 then (ox, oy) else Neighbour(ox, oy, j)
  }

  function Dropped(w: WorldMap, ox: int, oy: int, item: string): WorldMap
  {
    var c := DropTarget(w, ox, oy);
    Pushed(w, c.0, c.1, item)
  }

  /** The placement rule of `canPlaceObject`; `players` are the positions of
      all players, and `sqrt(d) < 25` is `d < 625`. */
  predicate Placeable(w: WorldMap, x: int, y: int, isFloor: bool, players: seq<(real, real)>)
  {
    var t := TileAt(w, x, y);
    t.terrain != Water &&
    if isFloor then t.floor == NoFloor
    else (t.obj == NoObject || t.obj == HighGrass) && forall i :: 0 <= i < |players| ==> !NearCentre(players[i], x, y)
  }

  /** A position within 25 units of the centre of tile (x, y). */
  predicate NearCentre(p: (real, real), x: int, y: int)
  {
    var cx := (x * 40) as real + 20.0;
    var cy := (y * 40) as real + 20.0;
    (p.0 - cx) * (p.0 - cx) + (p.1 - cy) * (p.1 - cy) < 625.0
  }

  function WithObject(w: WorldMap, x: int, y: int, k: ObjectKind): WorldMap
  {
    w[(x, y) := TileAt(w, x, y).(obj := k)]
  }

  function WithFloor(w: WorldMap, x: int, y: int): WorldMap
  {
    w[(x, y) := TileAt(w, x, y).(floor := Wood)]
  }

  // ---------------------------------------------------------------------
  // Properties

  /** Destroying removes exactly one layer: the object if there is one, else
      the floor; never both.  An absent key is left alone, nothing else changes. */
  lemma DestroyedFacts(w: WorldMap, x: int, y: int)
    ensures (x, y) !in w ==> Destroyed(w, x, y) == w
    ensures Destroyed(w, x, y).Keys == w.Keys
    ensures forall c :: c in w && c != (x, y) ==> Destroyed(w, x, y)[c] == w[c]
    ensures (x, y) in w ==>
      var t, t' := w[(x, y)], Destroyed(w, x, y)[(x, y)];
      t'.terrain == t.terrain && t'.items == t.items && t'.obj == NoObject &&
      (t.obj != NoObject ==> t'.floor == t.floor) &&
      (t.obj == NoObject ==> t'.floor == NoFloor)
  {
  }

  /** An update materialises its tile, rewrites only that tile, and within it
      only the layer its action names; terrain never changes. */
  lemma {:induction false} AppliedFrame(w: WorldMap, u: Update)
    ensures Applied(w, u).Keys == w.Keys + {(u.x, u.y)}
    ensures forall c :: c in w && c != (u.x, u.y) ==> Applied(w, u)[c] == w[c]
    ensures var t, t' := TileAt(w, u.x, u.y), Applied(w, u)[(u.x, u.y)];
      t'.terrain == t.terrain &&
      (u.action.DestroyObject? || u.action.PlaceObject? ==> t'.floor == t.floor && t'.items == t.items) &&
      (u.action.PlaceItem? || u.action.PickupItem? ==> t'.floor == t.floor && t'.obj == t.obj) &&
      (u.action.PlaceFloor? || u.action.DestroyFloor? ==> t'.obj == t.obj && t'.items == t.items) &&
      (u.action.OtherAction? ==> t' == t)
  {
    var t := TileAt(w, u.x, u.y);
    match u.action {
      case DestroyObject =>
      case PlaceItem(d) =>
      case PickupItem =>
      case PlaceObject(k) =>
      case PlaceFloor =>
      case DestroyFloor =>
      case OtherAction =>
    }
  }

  /** destroy_object, place_floor and destroy_floor are idempotent. */
  lemma AppliedIdempotent(w: WorldMap, u: Update)
    requires u.action == DestroyObject || u.action == PlaceFloor || u.action == DestroyFloor
    ensures Applied(Applied(w, u), u) == Applied(w, u)
  {
  }

  /** pickup_item on an empty stack and place_item without data only
      materialise the tile. */
  lemma AppliedNoOps(w: WorldMap, x: int, y: int, d: Option<string>)
    ensures |TileAt(w, x, y).items| == 0 ==> Applied(w, Update(x, y, PickupItem)) == w[(x, y) := TileAt(w, x, y)]
    ensures (d.None? || d.value == "") ==> Applied(w, Update(x, y, PlaceItem(d))) == w[(x, y) := TileAt(w, x, y)]
  {
  }

  /** place_item d followed by pickup_item on the same tile restores the stack. */
  lemma PlaceThenPickup(w: WorldMap, x: int, y: int, d: string)
    requires d != ""
    ensures Applied(Applied(w, Update(x, y, PlaceItem(Some(d)))), Update(x, y, PickupItem)) == w[(x, y) := TileAt(w, x, y)]
  {
    var t := TileAt(w, x, y);
    assert (t.items + [d])[..|t.items|] == t.items;
  }

  /** Peeking and picking up agree: the item peeked is the one removed, and
      the stack loses exactly its top. */
  lemma PeekThenPickup(w: WorldMap, wx: real, wy: real)
    ensures var x, y := TileOf(wx), TileOf(wy);
      var (got, w') := PickedUp(w, x, y);
      (PeekItem(w, wx, wy).None? ==> got.None? && w' == w) &&
      (PeekItem(w, wx, wy).Some? ==>
        (got == if PeekItem(w, wx, wy).value != "" then PeekItem(w, wx, wy) else None) &&
        w'[(x, y)].items + [PeekItem(w, wx, wy).value] == w[(x, y)].items)
  {
    var x, y := TileOf(wx), TileOf(wy);
    if (x, y) in w && |w[(x, y)].items| > 0 {
      var s := w[(x, y)].items;
      assert s[..|s| - 1] + [s[|s| - 1]] == s;
    }
  }

  /** The neighbour search stops at the first placeable neighbour in order:
      every neighbour before it is not placeable. */
  lemma {:induction false} FreeIndexSpec(w: WorldMap, ox: int, oy: int, k: nat)
    requires k <= 8
    ensures var j := FreeIndex(w, ox, oy, k);
      (j < 8 ==> CanDropAt(w, Neighbour(ox, oy, j).0, Neighbour(ox, oy, j).1)) &&
      forall i :: k <= i < j ==> !CanDropAt(w, Neighbour(ox, oy, i).0, Neighbour(ox, oy, i).1)
    decreases 8 - k
  {
    if k < 8 && !CanDropAt(w, Neighbour(ox, oy, k).0, Neighbour(ox, oy, k).1) {
      FreeIndexSpec(w, ox, oy, k + 1);
    }
  }

  /** Dropping adds exactly one item, on top of exactly one tile's stack. */
  lemma DroppedAddsOne(w: WorldMap, ox: int, oy: int, item: string)
    ensures var c := DropTarget(w, ox, oy);
      Dropped(w, ox, oy, item).Keys == w.Keys + {c} &&
      Dropped(w, ox, oy, item)[c] == TileAt(w, c.0, c.1).(items := TileAt(w, c.0, c.1).items + [item]) &&
      (forall d :: d in w && d != c ==> Dropped(w, ox, oy, item)[d] == w[d])
    ensures CanDropAt(w, ox, oy) ==> DropTarget(w, ox, oy) == (ox, oy)
  {
  }

  /** The local placements equal the updates broadcast for them, so peers
      that apply the update reach the same map. */
  lemma PlacementsAreUpdates(w: WorldMap, x: int, y: int, k: ObjectKind)
    ensures WithObject(w, x, y, k) == Applied(w, Update(x, y, PlaceObject(Some(k))))
    ensures WithFloor(w, x, y) == Applied(w, Update(x, y, PlaceFloor))
  {
  }

  /** The placement guard, both directions for objects and floors. */
  lemma PlaceableSpec(w: WorldMap, x: int, y: int, players: seq<(real, real)>)
    ensures Placeable(w, x, y, true, players) <==> TileAt(w, x, y).terrain != Water && TileAt(w, x, y).floor == NoFloor
    ensures TileAt(w, x, y).obj != NoObject && TileAt(w, x, y).obj != HighGrass ==> !Placeable(w, x, y, false, players)
    ensures (exists i :: 0 <= i < |players| && NearCentre(players[i], x, y)) ==> !Placeable(w, x, y, false, players)
    ensures Placeable(w, x, y, false, players) <==>
      TileAt(w, x, y).terrain != Water && (TileAt(w, x, y).obj == NoObject || TileAt(w, x, y).obj == HighGrass) &&
      !(exists i :: 0 <= i < |players| && NearCentre(players[i], x, y))
  {
  }

  // ---------------------------------------------------------------------
  // The store

  /** The module-level `world` dictionary. */
  class Store {
    var tiles: WorldMap

    constructor ()
      ensures tiles == map[]
    {
      tiles := map[];
    }

    method DestroyTileObject(x: int, y: int)
      modifies this
      ensures tiles == Destroyed(old(tiles), x, y)
    {
      var key := (x, y);
      if key !in tiles {
        return;
      }
      var t := tiles[key];
      if t.obj != NoObject {
        tiles := tiles[key := t.(obj := NoObject)];
      } else if t.floor != NoFloor {
        tiles := tiles[key := t.(floor := NoFloor)];
      }
    }

    method ApplyWorldUpdate(u: Update)
      modifies this
      ensures tiles == Applied(old(tiles), u)
    {
      var key := (u.x, u.y);
      if key !in tiles {
        tiles := tiles[key := PLAIN];
      }
      var t := tiles[key];
      match u.action {
        case DestroyObject =>
          tiles := tiles[key := t.(obj := NoObject)];
        case PlaceItem(d) =>
          if d.Some? && d.value != "" {
            tiles := tiles[key := t.(items := t.items + [d.value])];
          }
        case PickupItem =>
          if |t.items| > 0 {
            tiles := tiles[key := t.(items := t.items[..|t.items| - 1])];
          }
        case PlaceObject(k) =>
          if k.Some? {
            tiles := tiles[key := t.(obj := k.value)];
          }
        case PlaceFloor =>
          tiles := tiles[key := t.(floor := Wood)];
        case DestroyFloor =>
          tiles := tiles[key := t.(floor := NoFloor)];
        case OtherAction =>
      }
    }

    /** `worldChanges.forEach(applyWorldUpdate)` */
    method ApplyAll(us: seq<Update>)
      modifies this
      ensures tiles == AppliedAll(old(tiles), us)
    {
      var i := 0;
      while i < |us|
        invariant 0 <= i <= |us|
        invariant AppliedAll(old(tiles), us) == AppliedAll(tiles, us[i..])
      {
        assert us[i..][1..] == us[i + 1..];
        ApplyWorldUpdate(us[i]);
        i := i + 1;
      }
    }

    method PickupItemAt(x: int, y: int) returns (item: Option<string>)
      modifies this
      ensures (item, tiles) == PickedUp(old(tiles), x, y)
    {
      var key := (x, y);
      if key in tiles && |tiles[key].items| > 0 {
        var t := tiles[key];
        var top := t.items[|t.items| - 1];
        tiles := tiles[key := t.(items := t.items[..|t.items| - 1])];
        item := if top != "" then Some(top) else None;
      } else {
        item := None;
      }
    }

    method TryPlaceItemAt(x: int, y: int, item: string) returns (placed: bool)
      modifies this
      ensures placed == CanDropAt(old(tiles), x, y)
      ensures tiles == if placed then Pushed(old(tiles), x, y, item) else old(tiles)
    {
      var data := TileAt(tiles, x, y);
      if data.obj != NoObject && data.obj != HighGrass {
        return false;
      }
      if data.terrain == Water || |data.items| > 0 {
        return false;
      }
      ForcePlaceItem(x, y, item);
      return true;
    }

    method ForcePlaceItem(x: int, y: int, item: string)
      modifies this
      ensures tiles == Pushed(old(tiles), x, y, item)
    {
      var key := (x, y);
      if key !in tiles {
        tiles := tiles[key := PLAIN];
      }
      tiles := tiles[key := tiles[key].(items := tiles[key].items + [item])];
    }

    /** `dropItemOnGround`: the origin, else the neighbours in order, else
        the origin regardless. */
    method DropItemOnGround(ox: int, oy: int, item: string)
      modifies this
      ensures tiles == Dropped(old(tiles), ox, oy, item)
    {
      var ok := TryPlaceItemAt(ox, oy, item);
      if ok {
        return;
      }
      var k := 0;
      while k < 8
        invariant 0 <= k <= 8
        invariant tiles == old(tiles)
        invariant !CanDropAt(tiles, ox, oy)
        invariant FreeIndex(tiles, ox, oy, k) == FreeIndex(tiles, ox, oy, 0)
      {
        ok := TryPlaceItemAt(Neighbour(ox, oy, k).0, Neighbour(ox, oy, k).1, item);
        if ok {
          return;
        }
        k := k + 1;
      }
      ForcePlaceItem(ox, oy, item);
    }

    /** `canPlaceObject`: the player check is a loop with an early exit. */
    method CanPlaceObject(x: int, y: int, isFloor: bool, players: seq<(real, real)>) returns (ok: bool)
      ensures ok == Placeable(tiles, x, y, isFloor, players)
    {
      var data := TileAt(tiles, x, y);
      if data.terrain == Water {
        return false;
      }
      if isFloor {
        return data.floor == NoFloor;
      }
      if data.obj != NoObject && data.obj != HighGrass {
        return false;
      }
      var i := 0;
      while i < |players|
        invariant 0 <= i <= |players|
        invariant forall j :: 0 <= j < i ==> !NearCentre(players[j], x, y)
      {
        if NearCentre(players[i], x, y) {
          return false;
        }
        i := i + 1;
      }
      return true;
    }

    method PlaceObject(x: int, y: int, k: ObjectKind)
      modifies this
      ensures tiles == WithObject(old(tiles), x, y, k)
    {
      var key := (x, y);
      if key !in tiles {
        tiles := tiles[key := PLAIN];
      }
      tiles := tiles[key := tiles[key].(obj := k)];
    }

    method PlaceFloor(x: int, y: int)
      modifies this
      ensures tiles == WithFloor(old(tiles), x, y)
    {
      var key := (x, y);
      if key !in tiles {
        tiles := tiles[key := PLAIN];
      }
      tiles := tiles[key := tiles[key].(floor := Wood)];
    }
  }
}
