/**
 * The client's collision and water tests (physics.ts): which tiles the four
 * corners of a walking box touch, which objects stop them, the thin strips of
 * walls and closed doors, and the diagonal shore cut of water tiles.  Both
 * only read the store.
 */
module Physics {
  import opened Types
  import opened World

  // ---------------------------------------------------------------------
  // JavaScript remainder on numbers

  /** Truncation toward zero. */
  function Trunc(r: real): int
  {
    if r >= 0.0 then r.Floor else -((-r).Floor)
  }

  /** JavaScript's `a % 40`: the sign follows the dividend. */
  function JsRem40(a: real): real
  {
    a - 40.0 * Trunc(a / 40.0) as real
  }

  /** `((a % TILE_SIZE) + TILE_SIZE) % TILE_SIZE`, the offset inside a tile. */
  function Local(a: real): real
  {
    JsRem40(JsRem40(a) + 40.0)
  }

  lemma JsRem40Range(a: real)
    ensures -40.0 < JsRem40(a) < 40.0
    ensures a >= 0.0 ==> JsRem40(a) >= 0.0
  {
  }

  /** The only integer k with 0 <= a - 40k < 40 is floor(a / 40). */
  lemma FloorUnique(a: real, k: int)
    requires 0.0 <= a - 40.0 * k as real < 40.0
    ensures k == TileOf(a)
  {
  }

  /** The offset is the distance from the tile's left (or top) edge, in [0, 40),
      also for negative coordinates. */
  lemma LocalIsOffset(a: real)
    ensures 0.0 <= Local(a) < 40.0
    ensures Local(a) == a - 40.0 * TileOf(a) as real
  {
    var q := Trunc(a / 40.0);
    var b := JsRem40(a) + 40.0;
    JsRem40Range(a);
    assert 0.0 < b < 80.0;
    var k := Trunc(b / 40.0);
    assert k == 0 || k == 1;
    assert Local(a) == a - 40.0 * (q - 1 + k) as real;
    FloorUnique(a, q - 1 + k);
  }

  // ---------------------------------------------------------------------
  // Water

  predicate IsWater(w: WorldMap, x: int, y: int)
  {
    TileAt(w, x, y).terrain == Water
  }

  /** `isPositionInWater(x, y)`: on a water tile, unless the point lies in a
      corner triangle cut off by two land neighbours. */
  function InWater(w: WorldMap, x: real, y: real): bool
  {
    var tx, ty := TileOf(x), TileOf(y);
    if !IsWater(w, tx, ty) then false
    else
      var top, bottom := !IsWater(w, tx, ty - 1), !IsWater(w, tx, ty + 1);
      var left, right := !IsWater(w, tx - 1, ty), !IsWater(w, tx + 1, ty);
      var lx, ly := Local(x), Local(y);
      if top && left && lx + ly < 40.0 then false
      else if top && right && lx > ly then false
      else if bottom && left && lx < ly then false
      else if bottom && right && lx + ly > 40.0 then false
      else true
  }

  /** A point is in water only on a water tile; a water tile whose four
      neighbours are water is water everywhere. */
  lemma InWaterSpec(w: WorldMap, x: real, y: real)
    ensures InWater(w, x, y) ==> IsWater(w, TileOf(x), TileOf(y))
    ensures (IsWater(w, TileOf(x), TileOf(y)) &&
             IsWater(w, TileOf(x), TileOf(y) - 1) && IsWater(w, TileOf(x), TileOf(y) + 1) &&
             IsWater(w, TileOf(x) - 1, TileOf(y)) && IsWater(w, TileOf(x) + 1, TileOf(y)))
            ==> InWater(w, x, y)
  {
  }

  /** A lake tile with land only above and to the left is dry exactly in the
      triangle nearest that corner. */
  lemma ShoreCut(w: WorldMap, x: real, y: real)
    requires var tx, ty := TileOf(x), TileOf(y);
      IsWater(w, tx, ty) && !IsWater(w, tx, ty - 1) && !IsWater(w, tx - 1, ty) &&
      IsWater(w, tx, ty + 1) && IsWater(w, tx + 1, ty)
    ensures InWater(w, x, y) <==> (x - 40.0 * TileOf(x) as real) + (y - 40.0 * TileOf(y) as real) >= 40.0
  {
    LocalIsOffset(x);
    LocalIsOffset(y);
  }

  // ---------------------------------------------------------------------
  // Collision

  /** The open/closed test of a door: its angle is recorded and exceeds 0.25. */
  predicate DoorOpen(doors: map<Coord, real>, c: Coord)
  {
    c in doors && (doors[c] > 0.25 || doors[c] < -0.25)
  }

  /** The four corners of the box, shrunk by 12 and with the top lowered by 10. */
  function Corners(x: real, y: real, width: real, height: real): (cs: seq<(real, real)>)
    ensures |cs| == 4
  {
    var hw, hh := (width - 12.0) / 2.0, (height - 12.0) / 2.0;
    [(x - hw, y - hh + 10.0), (x + hw, y - hh + 10.0), (x - hw, y + hh), (x + hw, y + hh)]
  }

  /** The 10-unit strip along side s of tile (tx, ty), bounds included. */
  predicate InStrip(s: Side, tx: int, ty: int, px: real, py: real)
  {
    var x0, y0 := (tx * 40) as real, (ty * 40) as real;
    match s
    case Top => x0 <= px <= x0 + 40.0 && y0 <= py <= y0 + 10.0
    case Bottom => x0 <= px <= x0 + 40.0 && y0 + 30.0 <= py <= y0 + 40.0
    case Left => x0 <= px <= x0 + 10.0 && y0 <= py <= y0 + 40.0
    case Right => x0 + 30.0 <= px <= x0 + 40.0 && y0 <= py <= y0 + 40.0
  }

  /** Trees, big rocks and workbenches fill their tile. */
  predicate Solid(o: ObjectKind)
  {
    o == Tree || o == BigRock || o == Workbench
  }

  /** One corner test of `canMoveTo`. */
  predicate Blocks(w: WorldMap, doors: map<Coord, real>, p: (real, real))
  {
    var tx, ty := TileOf(p.0), TileOf(p.1);
    var o := TileAt(w, tx, ty).obj;
    Solid(o) ||
    (o.Wall? && InStrip(o.side, tx, ty, p.0, p.1)) ||
    (o.Door? && !DoorOpen(doors, (tx, ty)) && InStrip(o.side, tx, ty, p.0, p.1))
  }

  /** The box may stand at (x, y) when no corner is blocked. */
  predicate Free(w: WorldMap, doors: map<Coord, real>, x: real, y: real, width: real, height: real)
  {
    forall i :: 0 <= i < 4 ==> !Blocks(w, doors, Corners(x, y, width, height)[i])
  }

  /** The corner test, object by object: solid ones block, walls block on
      their strip, doors on their strip unless open, everything else never. */
  lemma BlocksSpec(w: WorldMap, doors: map<Coord, real>, p: (real, real))
    ensures var tx, ty := TileOf(p.0), TileOf(p.1);
      var o := TileAt(w, tx, ty).obj;
      (Solid(o) ==> Blocks(w, doors, p)) &&
      (o in {NoObject, Stone, HighGrass} ==> !Blocks(w, doors, p)) &&
      (o.Wall? ==> (Blocks(w, doors, p) <==> InStrip(o.side, tx, ty, p.0, p.1))) &&
      (o.Door? && DoorOpen(doors, (tx, ty)) ==> !Blocks(w, doors, p)) &&
      (o.Door? && !DoorOpen(doors, (tx, ty)) ==> (Blocks(w, doors, p) <==> InStrip(o.side, tx, ty, p.0, p.1)))
  {
  }

  /** Terrain and floor never block: a store that differs only in them
      gives the same answer. */
  lemma OnlyObjectsMatter(w1: WorldMap, w2: WorldMap, doors: map<Coord, real>, x: real, y: real, width: real, height: real)
    requires forall i :: 0 <= i < 4 ==>
      var p := Corners(x, y, width, height)[i];
      TileAt(w1, TileOf(p.0), TileOf(p.1)).obj == TileAt(w2, TileOf(p.0), TileOf(p.1)).obj
    ensures Free(w1, doors, x, y, width, height) == Free(w2, doors, x, y, width, height)
  {
  }

  /** The wall strip includes its inner edge: a point exactly 10 units below
      the top edge of a top wall is blocked, 10.5 units below is not. */
  lemma StripInclusive(w: WorldMap, doors: map<Coord, real>)
    requires TileAt(w, 0, 0).obj == Wall(Top)
    ensures Blocks(w, doors, (20.0, 10.0))
    ensures !Blocks(w, doors, (20.0, 10.5))
  {
    assert TileOf(20.0) == 0 && TileOf(10.0) == 0 && TileOf(10.5) == 0;
  }

  /** `canMoveTo(x, y, width, height)`: the corner loop with early return. */
  method CanMoveTo(w: Store, doors: map<Coord, real>, x: real, y: real, width: real, height: real)
    returns (ok: bool)
    ensures ok == Free(w.tiles, doors, x, y, width, height)
  {
    var corners := Corners(x, y, width, height);
    var i := 0;
    while i < 4
      invariant 0 <= i <= 4
      invariant forall j :: 0 <= j < i ==> !Blocks(w.tiles, doors, corners[j])
    {
      var corner := corners[i];
      var tileX := (corner.0 / 40.0).Floor;
      var tileY := (corner.1 / 40.0).Floor;
      var data := TileAt(w.tiles, tileX, tileY);
      if data.obj == Tree || data.obj == BigRock || data.obj == Workbench {
        return false;
      }
      if data.obj.Wall? {
        if InStrip(data.obj.side, tileX, tileY, corner.0, corner.1) {
          return false;
        }
      }
      if data.obj.Door? {
        var key := (tileX, tileY);
        if key in doors && (doors[key] > 0.25 || doors[key] < -0.25) {
          i := i + 1;
          continue;
        }
        if InStrip(data.obj.side, tileX, tileY, corner.0, corner.1) {
          return false;
        }
      }
      i := i + 1;
    }
    return true;
  }

  /** `isPositionInWater(x, y)` as a read of the store. */
  method IsPositionInWater(w: Store, x: real, y: real) returns (r: bool)
    ensures r == InWater(w.tiles, x, y)
  {
    var tileX := (x / 40.0).Floor;
    var tileY := (y / 40.0).Floor;
    var data := TileAt(w.tiles, tileX, tileY);
    if data.terrain != Water {
      return false;
    }
    var isTopLand := TileAt(w.tiles, tileX, tileY - 1).terrain != Water;
    var isBottomLand := TileAt(w.tiles, tileX, tileY + 1).terrain != Water;
    var isLeftLand := TileAt(w.tiles, tileX - 1, tileY).terrain != Water;
    var isRightLand := TileAt(w.tiles, tileX + 1, tileY).terrain != Water;
    var lx := JsRem40(JsRem40(x) + 40.0);
    var ly := JsRem40(JsRem40(y) + 40.0);
    if isTopLand && isLeftLand && lx + ly < 40.0 {
      return false;
    }
    if isTopLand && isRightLand && lx > ly {
      return false;
    }
    if isBottomLand && isLeftLand && lx < ly {
      return false;
    }
    if isBottomLand && isRightLand && lx + ly > 40.0 {
      return false;
    }
    return true;
  }
}
