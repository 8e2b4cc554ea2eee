/**
 * The older string-tile world of game.ts: a dictionary from the key
 * `${x},${y}` to one of 'grass', 'water', 'tree' and 'stone', generated in a
 * 120 by 120 window around the player with a grass clearing, read with
 * `getTile`, cleared with `destroyTile` and checked for movement with
 * `canMoveTo`.
 */
module Legacy {
  /** The legacy tile names. */
  datatype TileType = GrassTile | WaterTile | TreeTile | StoneTile

  /** A key `${x},${y}` for the two numbers it is built from; distinct
      numbers print differently, so the pair stands for the string. */
  type Key = (real, real)

  type LegacyMap = map<Key, TileType>

  const TILE_SIZE: real := 40.0
  const WORLD_RADIUS: int := 60
  const PADDING: real := 15.0

  /** `getTile(x, y)`: the arguments are floored; an absent key is grass. */
  function GetTile(m: LegacyMap, x: real, y: real): (t: TileType)
    ensures var k := (x.Floor as real, y.Floor as real); t == if k in m then m[k] else GrassTile
  {
    var k := (x.Floor as real, y.Floor as real);
    if k in m then m[k] else GrassTile
  }

  /** getTile reads the same key for every point of a unit square. */
  lemma GetTileFloors(m: LegacyMap, x: real, y: real)
    ensures GetTile(m, x, y) == GetTile(m, x.Floor as real, y.Floor as real)
  {
  }

  /** `destroyTile(x, y)` as written: the key is built from the raw arguments. */
  function Cleared(m: LegacyMap, x: real, y: real): (r: LegacyMap)
    ensures r.Keys == m.Keys + {(x, y)} && r[(x, y)] == GrassTile
    ensures forall k :: k in m && k != (x, y) ==> r[k] == m[k]
  {
    m[(x, y) := GrassTile]
  }

  /** On whole tile coordinates a destroyed tile reads as grass. */
  lemma DestroyThenGet(m: LegacyMap, x: int, y: int)
    ensures GetTile(Cleared(m, x as real, y as real), x as real, y as real) == GrassTile
  {
  }

  /** With a fractional coordinate the write lands on a key getTile never
      reads: the stone at (1, 2) survives `destroyTile(1.5, 2)`. */
  lemma DestroyFractionalMisses()
    ensures var m := map[(1.0, 2.0) := StoneTile];
      GetTile(Cleared(m, 1.5, 2.0), 1.5, 2.0) == StoneTile
  {
    var m := map[(1.0, 2.0) := StoneTile];
    assert (1.5).Floor == 1;
    assert (1.0, 2.0) != (1.5, 2.0);
  }

  /** The evident intent: destroy the tile getTile reads. */
  function ClearedFloored(m: LegacyMap, x: real, y: real): LegacyMap
  {
    m[(x.Floor as real, y.Floor as real) := GrassTile]
  }

  lemma DestroyFlooredThenGet(m: LegacyMap, x: real, y: real)
    ensures GetTile(ClearedFloored(m, x, y), x, y) == GrassTile
    ensures forall u: real, v: real :: (u.Floor, v.Floor) != (x.Floor, y.Floor) ==>
      GetTile(ClearedFloored(m, x, y), u, v) == GetTile(m, u, v)
  {
  }

  // ---------------------------------------------------------------------
  // Movement

  predicate Blocks(t: TileType)
  {
    t == TreeTile || t == StoneTile || t == WaterTile
  }

  /** Corner i of the hitbox in the order of `canMoveTo`: top-left and
      top-right (lowered by 10), bottom-left, bottom-right. */
  function Corner(x: real, y: real, width: real, height: real, i: nat): (real, real)
    requires i < 4
  {
    var hw := (width - PADDING) / 2.0;
    var hh := (height - PADDING) / 2.0;
    if i == 0 then (x - hw, y - hh + 10.0)
    else if i == 1 then (x + hw, y - hh + 10.0)
    else if i == 2 then (x - hw, y + hh)
    else (x + hw, y + hh)
  }

  /** The tile a corner lies on. */
  function CornerTile(m: LegacyMap, x: real, y: real, width: real, height: real, i: nat): TileType
    requires i < 4
  {
    var c := Corner(x, y, width, height, i);
    GetTile(m, (c.0 / TILE_SIZE).Floor as real, (c.1 / TILE_SIZE).Floor as real)
  }

  predicate Passable(m: LegacyMap, x: real, y: real, width: real, height: real)
  {
    forall i :: 0 <= i < 4 ==> !Blocks(CornerTile(m, x, y, width, height, i))
  }

  // ---------------------------------------------------------------------
  // Generation

  /** A key built from two whole numbers. */
  predicate WholeKey(k: Key)
  {
    k.0 == k.0.Floor as real && k.1 == k.1.Floor as real
  }

  /** The keys `generateWorld` writes for the player on tile (ptx, pty). */
  predicate InLegacyWindow(k: Key, ptx: int, pty: int)
  {
    WholeKey(k) && ptx - WORLD_RADIUS <= k.0.Floor < ptx + WORLD_RADIUS && pty - WORLD_RADIUS <= k.1.Floor < pty + WORLD_RADIUS
  }

  /** Within distance 4 of the player's tile (compared squared). */
  predicate InClearing(x: int, y: int, ptx: int, pty: int)
  {
    (ptx - x) * (ptx - x) + (pty - y) * (pty - y) < 16
  }

  /** The tile written at (x, y): grass in the clearing, otherwise what the
      noise and the random draws choose, here the function `classify`. */
  function LegacyTileFor(x: int, y: int, ptx: int, pty: int, classify: (int, int) -> TileType): TileType
  {
    if InClearing(x, y, ptx, pty) then GrassTile else classify(x, y)
  }

  /** A freshly generated map: exactly the window, grass in the clearing. */
  ghost predicate IsGenerated(m: LegacyMap, ptx: int, pty: int, classify: (int, int) -> TileType)
  {
    (forall k :: k in m <==> InLegacyWindow(k, ptx, pty)) &&
    (forall k :: k in m ==> m[k] == LegacyTileFor(k.0.Floor, k.1.Floor, ptx, pty, classify))
  }

  /** The clearing is centred on the player's tile, wherever the player is:
      every tile within distance 4 reads as grass. */
  lemma GeneratedClearing(m: LegacyMap, ptx: int, pty: int, classify: (int, int) -> TileType, x: int, y: int)
    requires IsGenerated(m, ptx, pty, classify) && InClearing(x, y, ptx, pty)
    ensures GetTile(m, x as real, y as real) == GrassTile
  {
    var k := (x as real, y as real);
    if k in m {
      assert m[k] == LegacyTileFor(x, y, ptx, pty, classify);
    }
  }

  /** Outside the clearing the generated tile is the classifier's choice. */
  lemma GeneratedOutside(m: LegacyMap, ptx: int, pty: int, classify: (int, int) -> TileType, x: int, y: int)
    requires IsGenerated(m, ptx, pty, classify) && !InClearing(x, y, ptx, pty)
    requires ptx - WORLD_RADIUS <= x < ptx + WORLD_RADIUS && pty - WORLD_RADIUS <= y < pty + WORLD_RADIUS
    ensures GetTile(m, x as real, y as real) == classify(x, y)
  {
    var k := (x as real, y as real);
    assert InLegacyWindow(k, ptx, pty);
  }

  /** Points less than one tile apart lie on the same or adjacent tiles. */
  lemma FloorClose(a: real, p: real)
    requires -8.5 <= a - p <= 8.5
    ensures (p / TILE_SIZE).Floor - 1 <= (a / TILE_SIZE).Floor <= (p / TILE_SIZE).Floor + 1
  {
    assert -1.0 < a / 40.0 - p / 40.0 < 1.0;
  }

  lemma NearSquare(d: int)
    requires -1 <= d <= 1
    ensures d * d <= 1
  {
  }

  /** A player whose world was generated around them can always move where
      they stand: every corner of the 32 by 32 hitbox is in the clearing. */
  lemma {:induction false} SpawnIsFree(m: LegacyMap, px: real, py: real, classify: (int, int) -> TileType)
    requires IsGenerated(m, (px / TILE_SIZE).Floor, (py / TILE_SIZE).Floor, classify)
    ensures Passable(m, px, py, 32.0, 32.0)
  {
    var ptx, pty := (px / TILE_SIZE).Floor, (py / TILE_SIZE).Floor;
    forall i | 0 <= i < 4
      ensures !Blocks(CornerTile(m, px, py, 32.0, 32.0, i))
    {
      var c := Corner(px, py, 32.0, 32.0, i);
      FloorClose(c.0, px);
      FloorClose(c.1, py);
      var tx, ty := (c.0 / TILE_SIZE).Floor, (c.1 / TILE_SIZE).Floor;
      NearSquare(ptx - tx);
      NearSquare(pty - ty);
      assert InClearing(tx, ty, ptx, pty);
      GeneratedClearing(m, ptx, pty, classify, tx, ty);
      assert CornerTile(m, px, py, 32.0, 32.0, i) == GetTile(m, tx as real, ty as real);
    }
  }

  /** The keys written before (x, y) in the loop order of `generateWorld`. */
  predicate WrittenBefore(k: Key, ptx: int, pty: int, x: int, y: int)
  {
    InLegacyWindow(k, ptx, pty) && (k.0.Floor < x || (k.0.Floor == x && k.1.Floor < y))
  }

  /** One more step of the inner loop writes exactly key (x, y). */
  lemma WrittenStep(ptx: int, pty: int, x: int, y: int)
    requires ptx - WORLD_RADIUS <= x < ptx + WORLD_RADIUS && pty - WORLD_RADIUS <= y < pty + WORLD_RADIUS
    ensures forall k: Key :: WrittenBefore(k, ptx, pty, x, y + 1) <==> WrittenBefore(k, ptx, pty, x, y) || k == (x as real, y as real)
  {
    forall k: Key
      ensures WrittenBefore(k, ptx, pty, x, y + 1) <==> WrittenBefore(k, ptx, pty, x, y) || k == (x as real, y as real)
    {
      if k == (x as real, y as real) {
        assert (x as real).Floor == x && (y as real).Floor == y;
      }
    }
  }

  /** The end of one column is the start of the next. */
  lemma WrittenColumn(ptx: int, pty: int, x: int, next: int, top: int, bottom: int)
    requires next == x + 1 && top == pty - WORLD_RADIUS && bottom == pty + WORLD_RADIUS
    ensures forall k: Key :: WrittenBefore(k, ptx, pty, x, bottom) <==> WrittenBefore(k, ptx, pty, next, top)
  {
  }

  /** The module-level `world` of game.ts. */
  class LegacyWorld {
    var world: LegacyMap

    constructor ()
      ensures world == map[]
    {
      world := map[];
    }

    method DestroyTile(x: real, y: real)
      modifies this
      ensures world == Cleared(old(world), x, y)
    {
      world := world[(x, y) := GrassTile];
    }

    /** `canMoveTo`: the loop over the corners returns false at the first
        one on a tree, a stone or water. */
    method CanMoveTo(x: real, y: real, width: real, height: real) returns (ok: bool)
      ensures ok == Passable(world, x, y, width, height)
    {
      var i := 0;
      while i < 4
        invariant 0 <= i <= 4
        invariant forall j :: 0 <= j < i ==> !Blocks(CornerTile(world, x, y, width, height, j))
      {
        var c := Corner(x, y, width, height, i);
        var tileType := GetTile(world, (c.0 / TILE_SIZE).Floor as real, (c.1 / TILE_SIZE).Floor as real);
        if tileType == TreeTile || tileType == StoneTile || tileType == WaterTile {
          assert Blocks(CornerTile(world, x, y, width, height, i));
          return false;
        }
        i := i + 1;
      }
      return true;
    }

    /** `generateWorld(playerX, playerY)`. */
    method GenerateWorld(playerX: real, playerY: real, classify: (int, int) -> TileType)
      modifies this
      ensures IsGenerated(world, (playerX / TILE_SIZE).Floor, (playerY / TILE_SIZE).Floor, classify)
    {
      world := map[];
      var ptx := (playerX / TILE_SIZE).Floor;
      var pty := (playerY / TILE_SIZE).Floor;
      var x := ptx - WORLD_RADIUS;
      while x < ptx + WORLD_RADIUS
        invariant ptx - WORLD_RADIUS <= x <= ptx + WORLD_RADIUS
        invariant forall k :: k in world <==> WrittenBefore(k, ptx, pty, x, pty - WORLD_RADIUS)
        invariant forall k :: k in world ==> world[k] == LegacyTileFor(k.0.Floor, k.1.Floor, ptx, pty, classify)
      {
        WriteColumn(ptx, pty, x, classify);
        WrittenColumn(ptx, pty, x, x + 1, pty - WORLD_RADIUS, pty + WORLD_RADIUS);
        x := x + 1;
      }
    }

    /** The inner loop: column x of the window. */
    method WriteColumn(ptx: int, pty: int, x: int, classify: (int, int) -> TileType)
      requires ptx - WORLD_RADIUS <= x < ptx + WORLD_RADIUS
      requires forall k :: k in world <==> WrittenBefore(k, ptx, pty, x, pty - WORLD_RADIUS)
      requires forall k :: k in world ==> world[k] == LegacyTileFor(k.0.Floor, k.1.Floor, ptx, pty, classify)
      modifies this
      ensures forall k :: k in world <==> WrittenBefore(k, ptx, pty, x, pty + WORLD_RADIUS)
      ensures forall k :: k in world ==> world[k] == LegacyTileFor(k.0.Floor, k.1.Floor, ptx, pty, classify)
    {
      var y := pty - WORLD_RADIUS;
      while y < pty + WORLD_RADIUS
        invariant pty - WORLD_RADIUS <= y <= pty + WORLD_RADIUS
        invariant forall k :: k in world <==> WrittenBefore(k, ptx, pty, x, y)
        invariant forall k :: k in world ==> world[k] == LegacyTileFor(k.0.Floor, k.1.Floor, ptx, pty, classify)
      {
        var key := (x as real, y as real);
        assert key.0.Floor == x && key.1.Floor == y;
        if InClearing(x, y, ptx, pty) {
          world := world[key := GrassTile];
        } else {
          world := world[key := classify(x, y)];
        }
        WrittenStep(ptx, pty, x, y);
        y := y + 1;
      }
    }
  }
}
