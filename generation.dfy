/**
 * World generation (generation.ts): the biome classifier that turns three
 * seeded noise fields into tiles, the loops that write its 100 x 100 window
 * around the player into the tile store, and the fixed showcase test world.
 *
 * The classifier is stated over three arbitrary fields; `FieldsOf(seed)`
 * is the instance the game uses, built from the seeded Noise2D tables, whose
 * samples lie in [0, 1].
 */
module Generation {
  import opened Types
  import opened World
  import opened Noise

  // ---------------------------------------------------------------------
  // The classifier

  /** The samplers `get(x, y)` of the elevation, moisture and object generators. */
  datatype Fields = Fields(elevation: (real, real) -> real, moisture: (real, real) -> real,
                           objects: (real, real) -> real)

  /** The sampler of one permutation table. */
  function Sampler(t: Perm512): (real, real) -> real
  {
    (u: real, v: real) => NoiseAt(t, u, v)
  }

  /** The generators `seed + "_elevation"`, `seed + "_moisture"` and
      `seed + "_objects"`. */
  function FieldsOf(seed: string): Fields
  {
    Fields(Sampler(PermTable(seed + "_elevation")), Sampler(PermTable(seed + "_moisture")),
           Sampler(PermTable(seed + "_objects")))
  }

  ghost predicate InUnit(f: Fields)
  {
    forall u: real, v: real ::
      0.0 <= f.elevation(u, v) <= 1.0 && 0.0 <= f.moisture(u, v) <= 1.0 && 0.0 <= f.objects(u, v) <= 1.0
  }

  /** The game's fields are functions of the seed with values in [0, 1]. */
  lemma FieldsOfInUnit(seed: string)
    ensures InUnit(FieldsOf(seed))
  {
  }

  /** Elevation of a tile: the field at scale 0.08. */
  function Elev(f: Fields, x: int, y: int): real
  {
    f.elevation(x as real * 0.08, y as real * 0.08)
  }

  function Moist(f: Fields, x: int, y: int): real
  {
    f.moisture(x as real * 0.08, y as real * 0.08)
  }

  /** The object noise at scale 0.5. */
  function Rnd(f: Fields, x: int, y: int): real
  {
    f.objects(x as real * 0.5, y as real * 0.5)
  }

  /** The object generator again, at scale 0.1: rock clusters. */
  function Cluster(f: Fields, x: int, y: int): real
  {
    f.objects(x as real * 0.1, y as real * 0.1)
  }

  /** `Math.sqrt(x*x + y*y) < 5`, with absolute tile coordinates. */
  predicate InSafeZone(x: int, y: int)
  {
    x * x + y * y < 25
  }

  function Abs(x: int): nat
  {
    if x < 0 then -x else x
  }

  /** `Math.abs(x) % 2 === 0 && Math.abs(y) % 2 === 0` */
  predicate EvenSpacing(x: int, y: int)
  {
    Abs(x) % 2 == 0 && Abs(y) % 2 == 0
  }

  /** The i-th (dx, dy) of the 5 x 5 scan: dx outer, dy inner, both from -2. */
  function Offset(i: nat): (int, int)
    requires i < 25
  {
    (i / 5 - 2, i % 5 - 2)
  }

  lemma OffsetOf(a: int, b: int)
    requires 0 <= a < 5 && 0 <= b < 5
    ensures a * 5 + b < 25 && Offset(a * 5 + b) == (a - 2, b - 2)
  {
    assert (a * 5 + b) / 5 == a;
    assert (a * 5 + b) % 5 == b;
  }

  /** The i-th tile of the scan around (x, y) is water. */
  predicate WetAt(f: Fields, x: int, y: int, i: nat)
    requires i < 25
  {
    Elev(f, x + Offset(i).0, y + Offset(i).1) < 0.35
  }

  /** Some tile of the 5 x 5 square centred on (x, y) has elevation below 0.35. */
  predicate WaterNear(f: Fields, x: int, y: int)
  {
    exists i :: 0 <= i < 25 && WetAt(f, x, y, i)
  }

  /** The scan reaches every tile of the square. */
  lemma WaterNearSquare(f: Fields, x: int, y: int, dx: int, dy: int)
    requires -2 <= dx <= 2 && -2 <= dy <= 2
    requires Elev(f, x + dx, y + dy) < 0.35
    ensures WaterNear(f, x, y)
  {
    OffsetOf(dx + 2, dy + 2);
    assert WetAt(f, x, y, (dx + 2) * 5 + (dy + 2));
  }

  /** The tile `generateBiomedWorld` writes at (x, y). */
  function Classify(f: Fields, x: int, y: int): Tile
  {
    if InSafeZone(x, y) then PLAIN
    else if Elev(f, x, y) < 0.35 then PLAIN.(terrain := Water)
    else PLAIN.(obj := ObjectLayer(f, x, y))
  }

  /** The object decision on dry land outside the safe zone, by moisture band. */
  function ObjectLayer(f: Fields, x: int, y: int): ObjectKind
  {
    if Moist(f, x, y) > 0.55 then WetObject(f, x, y)
    else if Moist(f, x, y) > 0.3 then MediumObject(f, x, y)
    else DryObject(f, x, y)
  }

  /** Moisture above 0.55: a tree on even tiles away from water, else high grass. */
  function WetObject(f: Fields, x: int, y: int): ObjectKind
  {
    if EvenSpacing(x, y) && Rnd(f, x, y) > 0.25 then
      if WaterNear(f, x, y) then HighGrass else Tree
    else if Rnd(f, x, y) > 0.1 then HighGrass
    else NoObject
  }

  /** Moisture in (0.3, 0.55]: sparse trees and high grass. */
  function MediumObject(f: Fields, x: int, y: int): ObjectKind
  {
    if EvenSpacing(x, y) && Rnd(f, x, y) > 0.85 then Tree
    else if Rnd(f, x, y) > 0.5 then HighGrass
    else NoObject
  }

  /** Moisture at most 0.3: rocks inside clusters. */
  function DryObject(f: Fields, x: int, y: int): ObjectKind
  {
    if Cluster(f, x, y) > 0.82 then
      if Rnd(f, x, y) > 0.2 then BigRock else Stone
    else NoObject
  }

  // ---------------------------------------------------------------------
  // Properties of the classifier

  /** The safe zone is plain grass: no water, floor, object or item. */
  lemma SafeZonePlain(f: Fields, x: int, y: int)
    requires InSafeZone(x, y)
    ensures Classify(f, x, y) == Tile(Grass, NoFloor, NoObject, [])
  {
  }

  /** Every generated tile has no floor and no items; it is water exactly
      outside the safe zone where the elevation is below 0.35, and water
      carries no object. */
  lemma ClassifyLayers(f: Fields, x: int, y: int)
    ensures Classify(f, x, y).floor == NoFloor && Classify(f, x, y).items == []
    ensures Classify(f, x, y).terrain == Water <==> !InSafeZone(x, y) && Elev(f, x, y) < 0.35
    ensures Classify(f, x, y).terrain == Water ==> Classify(f, x, y).obj == NoObject
    ensures Classify(f, x, y).obj in {NoObject, Tree, HighGrass, Stone, BigRock}
  {
  }

  /** Trees grow only on dry land outside the safe zone with moisture above
      0.3 and both coordinates even; in the wet band only away from water,
      in the medium band only when the object noise exceeds 0.85. */
  lemma TreeRule(f: Fields, x: int, y: int)
    ensures Classify(f, x, y).obj == Tree <==>
      !InSafeZone(x, y) && Elev(f, x, y) >= 0.35 && EvenSpacing(x, y) &&
      ((Moist(f, x, y) > 0.55 && Rnd(f, x, y) > 0.25 && !WaterNear(f, x, y)) ||
       (0.3 < Moist(f, x, y) <= 0.55 && Rnd(f, x, y) > 0.85))
    ensures Classify(f, x, y).obj == Tree ==> Moist(f, x, y) > 0.3 && EvenSpacing(x, y)
  {
  }

  /** In the wet band a tree candidate becomes high grass exactly when water
      lies in its 5 x 5 neighbourhood. */
  lemma RiverbankRule(f: Fields, x: int, y: int)
    requires !InSafeZone(x, y) && Elev(f, x, y) >= 0.35
    requires Moist(f, x, y) > 0.55 && EvenSpacing(x, y) && Rnd(f, x, y) > 0.25
    ensures Classify(f, x, y).obj == HighGrass <==> WaterNear(f, x, y)
    ensures Classify(f, x, y).obj == Tree <==> !WaterNear(f, x, y)
  {
  }

  /** Stones and big rocks appear only in the dry band inside a rock cluster
      (cluster noise above 0.82), big rocks exactly when the object noise
      exceeds 0.2. */
  lemma RockRule(f: Fields, x: int, y: int)
    ensures Classify(f, x, y).obj in {Stone, BigRock} <==>
      !InSafeZone(x, y) && Elev(f, x, y) >= 0.35 && Moist(f, x, y) <= 0.3 && Cluster(f, x, y) > 0.82
    ensures Classify(f, x, y).obj == BigRock <==>
      !InSafeZone(x, y) && Elev(f, x, y) >= 0.35 && Moist(f, x, y) <= 0.3 &&
      Cluster(f, x, y) > 0.82 && Rnd(f, x, y) > 0.2
  {
  }

  // ---------------------------------------------------------------------
  // The window

  /** The 100 x 100 tiles around the player's tile. */
  predicate InWindow(c: Coord, ptx: int, pty: int)
  {
    ptx - 50 <= c.0 < ptx + 50 && pty - 50 <= c.1 < pty + 50
  }

  function Window(ptx: int, pty: int): set<Coord>
  {
    set x: int, y: int | ptx - 50 <= x < ptx + 50 && pty - 50 <= y < pty + 50 :: (x, y)
  }

  /** The store after `generateBiomedWorld`: the window rewritten with the
      classifier, every other key as it was. */
  function Generated(w: WorldMap, f: Fields, ptx: int, pty: int): WorldMap
  {
    map c | c in w.Keys + Window(ptx, pty) :: if InWindow(c, ptx, pty) then Classify(f, c.0, c.1) else w[c]
  }

  /** Generation writes exactly the window, whatever the window held before,
      and leaves every other key alone. */
  lemma GeneratedSpec(w: WorldMap, f: Fields, ptx: int, pty: int)
    ensures forall c :: c in Generated(w, f, ptx, pty) <==> c in w || InWindow(c, ptx, pty)
    ensures forall c :: InWindow(c, ptx, pty) ==> Generated(w, f, ptx, pty)[c] == Classify(f, c.0, c.1)
    ensures forall c :: c in w && !InWindow(c, ptx, pty) ==> Generated(w, f, ptx, pty)[c] == w[c]
  {
    forall c | InWindow(c, ptx, pty)
      ensures c in Window(ptx, pty)
    {
      var (x, y) := c;
      assert (x, y) in Window(ptx, pty);
    }
  }

  /** Two stores that differ only inside the window are made equal by
      generation: what the window held before is lost. */
  lemma GeneratedOverwrites(w1: WorldMap, w2: WorldMap, f: Fields, ptx: int, pty: int)
    requires forall c :: !InWindow(c, ptx, pty) ==> (c in w1 <==> c in w2)
    requires forall c :: c in w1 && !InWindow(c, ptx, pty) ==> c in w2 && w1[c] == w2[c]
    ensures Generated(w1, f, ptx, pty) == Generated(w2, f, ptx, pty)
  {
    GeneratedSpec(w1, f, ptx, pty);
    GeneratedSpec(w2, f, ptx, pty);
  }

  // ---------------------------------------------------------------------
  // The generator as written

  /** The generator `gen` samples the field `field`. */
  ghost predicate SamplerOf(gen: Noise2D, field: (real, real) -> real)
    reads gen, gen.perm
  {
    gen.Valid() && field == Sampler(gen.table)
  }

  /** The fields are what the three generators sample. */
  ghost predicate Samples(f: Fields, eg: Noise2D, mg: Noise2D, og: Noise2D)
    reads eg, eg.perm, mg, mg.perm, og, og.perm
  {
    SamplerOf(eg, f.elevation) && SamplerOf(mg, f.moisture) && SamplerOf(og, f.objects)
  }

  /** `gen.get(u, v)` */
  method Sample(gen: Noise2D, ghost field: (real, real) -> real, u: real, v: real) returns (r: real)
    requires SamplerOf(gen, field)
    ensures r == field(u, v)
  {
    r := gen.Get(u, v);
  }

  /** The 5 x 5 scan with its two `break`s; `scanned` counts the tiles
      already looked at. */
  method ScanWaterNear(eg: Noise2D, ghost f: Fields, x: int, y: int) returns (found: bool)
    requires SamplerOf(eg, f.elevation)
    ensures found == WaterNear(f, x, y)
  {
    found := false;
    ghost var scanned := 0;
    var dx := -2;
    while dx <= 2
      invariant -2 <= dx <= 3 && scanned == (dx + 2) * 5
      invariant found ==> WaterNear(f, x, y)
      invariant !found ==> forall i :: 0 <= i < scanned ==> !WetAt(f, x, y, i)
    {
      var dy := -2;
      while dy <= 2
        invariant -2 <= dy <= 3 && scanned == (dx + 2) * 5 + (dy + 2)
        invariant found ==> WaterNear(f, x, y)
        invariant !found ==> forall i :: 0 <= i < scanned ==> !WetAt(f, x, y, i)
      {
        var e := Sample(eg, f.elevation, (x + dx) as real * 0.08, (y + dy) as real * 0.08);
        if e < 0.35 {
          WaterNearSquare(f, x, y, dx, dy);
          found := true;
          break;
        }
        OffsetOf(dx + 2, dy + 2);
        assert !WetAt(f, x, y, scanned);
        dy := dy + 1;
        scanned := scanned + 1;
      }
      if found {
        break;
      }
      dx := dx + 1;
    }
  }

  /** The body of the inner loop of `generateBiomedWorld` up to the write. */
  method GenerateTile(eg: Noise2D, mg: Noise2D, og: Noise2D, ghost f: Fields, x: int, y: int) returns (tile: Tile)
    requires Samples(f, eg, mg, og)
    ensures tile == Classify(f, x, y)
  {
    tile := PLAIN;
    if x * x + y * y < 25 {
      return;
    }
    var elev := Sample(eg, f.elevation, x as real * 0.08, y as real * 0.08);
    if elev < 0.35 {
      tile := tile.(terrain := Water);
    } else {
      var moist := Sample(mg, f.moisture, x as real * 0.08, y as real * 0.08);
      var rnd := Sample(og, f.objects, x as real * 0.5, y as real * 0.5);
      var k;
      if moist > 0.55 {
        k := ChooseWet(eg, f, x, y, rnd);
      } else if moist > 0.3 {
        k := ChooseMedium(f, x, y, rnd);
      } else {
        k := ChooseDry(og, f, x, y, rnd);
      }
      tile := tile.(obj := k);
    }
  }

  method ChooseWet(eg: Noise2D, ghost f: Fields, x: int, y: int, rnd: real) returns (k: ObjectKind)
    requires SamplerOf(eg, f.elevation)
    requires rnd == Rnd(f, x, y)
    ensures k == WetObject(f, x, y)
  {
    var isSpacingValid := Abs(x) % 2 == 0 && Abs(y) % 2 == 0;
    k := NoObject;
    if isSpacingValid && rnd > 0.25 {
      var isWaterNear := ScanWaterNear(eg, f, x, y);
      if !isWaterNear {
        k := Tree;
      } else {
        k := HighGrass;
      }
    } else if rnd > 0.1 {
      k := HighGrass;
    }
  }

  method ChooseMedium(ghost f: Fields, x: int, y: int, rnd: real) returns (k: ObjectKind)
    requires rnd == Rnd(f, x, y)
    ensures k == MediumObject(f, x, y)
  {
    var isSpacingValid := Abs(x) % 2 == 0 && Abs(y) % 2 == 0;
    k := NoObject;
    if isSpacingValid && rnd > 0.85 {
      k := Tree;
    } else if rnd > 0.5 {
      k := HighGrass;
    }
  }

  method ChooseDry(og: Noise2D, ghost f: Fields, x: int, y: int, rnd: real) returns (k: ObjectKind)
    requires SamplerOf(og, f.objects)
    requires rnd == Rnd(f, x, y)
    ensures k == DryObject(f, x, y)
  {
    var clusterNoise := Sample(og, f.objects, x as real * 0.1, y as real * 0.1);
    k := NoObject;
    if clusterNoise > 0.82 {
      if rnd > 0.2 {
        k := BigRock;
      } else {
        k := Stone;
      }
    }
  }

  /** Tiles of the window already written when the loops stand at (x, y). */
  predicate WrittenBefore(c: Coord, ptx: int, pty: int, x: int, y: int)
  {
    InWindow(c, ptx, pty) && (c.0 < x || (c.0 == x && c.1 < y))
  }

  /** The two nested loops over the window. */
  method WriteWindow(w: Store, eg: Noise2D, mg: Noise2D, og: Noise2D, ghost f: Fields, ptx: int, pty: int)
    requires Samples(f, eg, mg, og)
    modifies w
    ensures w.tiles == Generated(old(w.tiles), f, ptx, pty)
  {
    ghost var w0 := w.tiles;
    var x := ptx - 50;
    while x < ptx + 50
      invariant ptx - 50 <= x <= ptx + 50
      invariant forall c :: c in w.tiles <==> c in w0 || WrittenBefore(c, ptx, pty, x, pty - 50)
      invariant forall c :: c in w.tiles ==>
        w.tiles[c] == if WrittenBefore(c, ptx, pty, x, pty - 50) then Classify(f, c.0, c.1) else w0[c]
    {
      WriteColumn(w, eg, mg, og, f, ptx, pty, x);
      x := x + 1;
    }
    GeneratedSpec(w0, f, ptx, pty);
    assert forall c :: WrittenBefore(c, ptx, pty, x, pty - 50) <==> InWindow(c, ptx, pty);
  }

  /** The inner loop: column x of the window. */
  method WriteColumn(w: Store, eg: Noise2D, mg: Noise2D, og: Noise2D, ghost f: Fields, ptx: int, pty: int, x: int)
    requires Samples(f, eg, mg, og) && ptx - 50 <= x < ptx + 50
    modifies w
    ensures forall c :: c in w.tiles <==> c in old(w.tiles) || (InWindow(c, ptx, pty) && c.0 == x)
    ensures forall c :: c in w.tiles ==>
      w.tiles[c] == if InWindow(c, ptx, pty) && c.0 == x then Classify(f, c.0, c.1) else old(w.tiles)[c]
  {
    ghost var w0 := w.tiles;
    var y := pty - 50;
    while y < pty + 50
      invariant pty - 50 <= y <= pty + 50
      invariant forall c :: c in w.tiles <==> c in w0 || (InWindow(c, ptx, pty) && c.0 == x && c.1 < y)
      invariant forall c :: c in w.tiles ==>
        w.tiles[c] == if InWindow(c, ptx, pty) && c.0 == x && c.1 < y then Classify(f, c.0, c.1) else w0[c]
    {
      var tile := GenerateTile(eg, mg, og, f, x, y);
      w.tiles := w.tiles[(x, y) := tile];
      y := y + 1;
    }
  }

  /** `generateBiomedWorld(playerX, playerY)` with the world seed `seed`. */
  method GenerateBiomedWorld(w: Store, seed: string, playerX: real, playerY: real)
    modifies w
    ensures w.tiles == Generated(old(w.tiles), FieldsOf(seed), TileOf(playerX), TileOf(playerY))
  {
    var ptx := (playerX / 40.0).Floor;
    var pty := (playerY / 40.0).Floor;
    var eg := new Noise2D(seed + "_elevation");
    var mg := new Noise2D(seed + "_moisture");
    var og := new Noise2D(seed + "_objects");
    WriteWindow(w, eg, mg, og, FieldsOf(seed), ptx, pty);
  }

  // ---------------------------------------------------------------------
  // The test world

  predicate InTestSquare(c: Coord)
  {
    -50 <= c.0 < 50 && -50 <= c.1 < 50
  }

  function TestSquare(): set<Coord>
  {
    set x: int, y: int | -50 <= x < 50 && -50 <= y < 50 :: (x, y)
  }

  const BASE_ITEMS: seq<ObjectKind> := [Tree, Stone, BigRock, HighGrass, Workbench]
  const WALLS: seq<ObjectKind> := [Wall(Top), Wall(Right), Wall(Bottom), Wall(Left)]
  const DOORS: seq<ObjectKind> := [Door(Top), Door(Right), Door(Bottom), Door(Left)]

  /** The index i of a showcase column x = 5i - 10, or -1 off the columns. */
  function Column(x: int): int
  {
    if x >= -10 && (x + 10) % 5 == 0 then (x + 10) / 5 else -1
  }

  lemma ColumnOf(i: nat)
    ensures Column(i * 5 - 10) == i
  {
    assert (i * 5) % 5 == 0;
    assert (i * 5) / 5 == i;
  }

  /** The showcase object at (x, y): base objects on row -5, walls on row 0,
      doors on row 5, each row in columns 5i - 10. */
  function TestObject(x: int, y: int): ObjectKind
  {
    var i := Column(x);
    if y == -5 && 0 <= i < |BASE_ITEMS| then BASE_ITEMS[i]
    else if y == 0 && 0 <= i < |WALLS| then WALLS[i]
    else if y == 5 && 0 <= i < |DOORS| then DOORS[i]
    else NoObject
  }

  /** The thirteen showcase cells: columns 5i - 10 of row -5 for the five
      base objects, and of rows 0 and 5 for the four walls and doors. */
  predicate ShowcaseCell(x: int, y: int)
  {
    var i := Column(x);
    (y == -5 && 0 <= i < 5) || ((y == 0 || y == 5) && 0 <= i < 4)
  }

  /** The 3 x 3 pond and the 3 x 3 wooden floor. */
  predicate InPond(x: int, y: int)
  {
    -10 <= x <= -8 && 10 <= y <= 12
  }

  predicate InFloorPatch(x: int, y: int)
  {
    -5 <= x <= -3 && 10 <= y <= 12
  }

  function TestTile(x: int, y: int): Tile
  {
    Tile(if InPond(x, y) then Water else Grass,
         if InFloorPatch(x, y) then Wood else NoFloor,
         TestObject(x, y), [])
  }

  /** The store after `generateTestWorld`, whatever the player's position. */
  function TestWorld(w: WorldMap): WorldMap
  {
    map c | c in w.Keys + TestSquare() :: if InTestSquare(c) then TestTile(c.0, c.1) else w[c]
  }

  /** The square [-50, 50)^2 is rewritten, other keys are untouched; the
      showcase sits where the rows name it, and every other tile of the
      square holds no object. */
  lemma TestWorldSpec(w: WorldMap)
    ensures forall c :: c in TestWorld(w) <==> c in w || InTestSquare(c)
    ensures forall c :: c in w && !InTestSquare(c) ==> TestWorld(w)[c] == w[c]
    ensures forall c :: InTestSquare(c) ==>
      TestWorld(w)[c].items == [] &&
      TestWorld(w)[c].terrain == (if InPond(c.0, c.1) then Water else Grass) &&
      TestWorld(w)[c].floor == (if InFloorPatch(c.0, c.1) then Wood else NoFloor)
    ensures forall i :: 0 <= i < 5 ==> TestWorld(w)[(5 * i - 10, -5)].obj == BASE_ITEMS[i]
    ensures forall i :: 0 <= i < 4 ==> TestWorld(w)[(5 * i - 10, 0)].obj == WALLS[i]
    ensures forall i :: 0 <= i < 4 ==> TestWorld(w)[(5 * i - 10, 5)].obj == DOORS[i]
    ensures forall c :: InTestSquare(c) && !ShowcaseCell(c.0, c.1) ==> TestWorld(w)[c].obj == NoObject
  {
    forall c | InTestSquare(c)
      ensures c in TestSquare()
    {
      var (x, y) := c;
      assert (x, y) in TestSquare();
    }
    forall i | 0 <= i < 5
      ensures Column(5 * i - 10) == i
    {
      ColumnOf(i);
    }
  }

  /** A tile off the showcase rows, the pond and the floor patch is plain grass. */
  lemma TestWorldPlain(w: WorldMap, x: int, y: int)
    requires InTestSquare((x, y)) && y != -5 && y != 0 && y != 5 && !InPond(x, y) && !InFloorPatch(x, y)
    ensures TestWorld(w)[(x, y)] == PLAIN
  {
    TestWorldSpec(w);
  }

  /** Phase 1 of `generateTestWorld`: the square cleared to plain grass. */
  method ClearTestSquare(w: Store)
    modifies w
    ensures forall c :: c in w.tiles <==> c in old(w.tiles) || InTestSquare(c)
    ensures forall c :: c in w.tiles ==> w.tiles[c] == if InTestSquare(c) then PLAIN else old(w.tiles)[c]
  {
    ghost var w0 := w.tiles;
    var x := -50;
    while x < 50
      invariant -50 <= x <= 50
      invariant forall c :: c in w.tiles <==> c in w0 || WrittenBefore(c, 0, 0, x, -50)
      invariant forall c :: c in w.tiles ==>
        w.tiles[c] == if WrittenBefore(c, 0, 0, x, -50) then PLAIN else w0[c]
    {
      var y := -50;
      while y < 50
        invariant -50 <= y <= 50
        invariant forall c :: c in w.tiles <==> c in w0 || WrittenBefore(c, 0, 0, x, y)
        invariant forall c :: c in w.tiles ==>
          w.tiles[c] == if WrittenBefore(c, 0, 0, x, y) then PLAIN else w0[c]
      {
        w.tiles := w.tiles[(x, y) := PLAIN];
        y := y + 1;
      }
      x := x + 1;
    }
  }

  /** `list.forEach((obj, i) => ... world[(5i - 10, ty)].object = obj)`, each
      write guarded by the key being present. */
  method PlaceRow(w: Store, kinds: seq<ObjectKind>, ty: int)
    modifies w
    ensures w.tiles.Keys == old(w.tiles).Keys
    ensures forall c :: c in w.tiles ==>
      w.tiles[c] == if c.1 == ty && 0 <= Column(c.0) < |kinds| then old(w.tiles)[c].(obj := kinds[Column(c.0)])
                    else old(w.tiles)[c]
  {
    ghost var w0 := w.tiles;
    var i := 0;
    while i < |kinds|
      invariant 0 <= i <= |kinds|
      invariant w.tiles.Keys == w0.Keys
      invariant forall c :: c in w.tiles ==>
        w.tiles[c] == if c.1 == ty && 0 <= Column(c.0) < i then w0[c].(obj := kinds[Column(c.0)]) else w0[c]
    {
      var tx := i * 5 - 10;
      ColumnOf(i);
      if (tx, ty) in w.tiles {
        w.tiles := w.tiles[(tx, ty) := w.tiles[(tx, ty)].(obj := kinds[i])];
      }
      i := i + 1;
    }
  }

  /** The two 3 x 3 loops: water terrain on the pond, wood on the floor patch,
      each write guarded by the key being present. */
  method PaintPatches(w: Store)
    modifies w
    ensures w.tiles.Keys == old(w.tiles).Keys
    ensures forall c :: c in w.tiles ==>
      w.tiles[c] == old(w.tiles)[c].(
        terrain := if InPond(c.0, c.1) then Water else old(w.tiles)[c].terrain,
        floor := if InFloorPatch(c.0, c.1) then Wood else old(w.tiles)[c].floor)
  {
    PaintPond(w);
    PaintFloorPatch(w);
  }

  method PaintPond(w: Store)
    modifies w
    ensures w.tiles.Keys == old(w.tiles).Keys
    ensures forall c :: c in w.tiles ==>
      w.tiles[c] == old(w.tiles)[c].(terrain := if InPond(c.0, c.1) then Water else old(w.tiles)[c].terrain)
  {
    ghost var w0 := w.tiles;
    var x := -10;
    while x <= -8
      invariant -10 <= x <= -7
      invariant w.tiles.Keys == w0.Keys
      invariant forall c :: c in w.tiles ==>
        w.tiles[c] == w0[c].(terrain := if InPond(c.0, c.1) && c.0 < x then Water else w0[c].terrain)
    {
      var y := 10;
      while y <= 12
        invariant 10 <= y <= 13
        invariant w.tiles.Keys == w0.Keys
        invariant forall c :: c in w.tiles ==>
          w.tiles[c] == w0[c].(terrain :=
            if InPond(c.0, c.1) && (c.0 < x || (c.0 == x && c.1 < y)) then Water else w0[c].terrain)
      {
        if (x, y) in w.tiles {
          w.tiles := w.tiles[(x, y) := w.tiles[(x, y)].(terrain := Water)];
        }
        y := y + 1;
      }
      x := x + 1;
    }
  }

  method PaintFloorPatch(w: Store)
    modifies w
    ensures w.tiles.Keys == old(w.tiles).Keys
    ensures forall c :: c in w.tiles ==>
      w.tiles[c] == old(w.tiles)[c].(floor := if InFloorPatch(c.0, c.1) then Wood else old(w.tiles)[c].floor)
  {
    ghost var w1 := w.tiles;
    var x := -5;
    while x <= -3
      invariant -5 <= x <= -2
      invariant w.tiles.Keys == w1.Keys
      invariant forall c :: c in w.tiles ==>
        w.tiles[c] == w1[c].(floor := if InFloorPatch(c.0, c.1) && c.0 < x then Wood else w1[c].floor)
    {
      var y := 10;
      while y <= 12
        invariant 10 <= y <= 13
        invariant w.tiles.Keys == w1.Keys
        invariant forall c :: c in w.tiles ==>
          w.tiles[c] == w1[c].(floor :=
            if InFloorPatch(c.0, c.1) && (c.0 < x || (c.0 == x && c.1 < y)) then Wood else w1[c].floor)
      {
        if (x, y) in w.tiles {
          w.tiles := w.tiles[(x, y) := w.tiles[(x, y)].(floor := Wood)];
        }
        y := y + 1;
      }
      x := x + 1;
    }
  }

  /** `generateTestWorld(playerX, playerY)`: the arguments play no part. */
  method GenerateTestWorld(w: Store, playerX: real, playerY: real)
    modifies w
    ensures w.tiles == TestWorld(old(w.tiles))
  {
    ghost var w0 := w.tiles;
    ClearTestSquare(w);
    ghost var w1 := w.tiles;
    PlaceRow(w, BASE_ITEMS, -5);
    ghost var wa := w.tiles;
    PlaceRow(w, WALLS, 0);
    ghost var wb := w.tiles;
    PlaceRow(w, DOORS, 5);
    ghost var w2 := w.tiles;
    RowsPlaced(w1, wa, wb, w2);
    PaintPatches(w);
    TestWorldPhases(w0, w1, w2, w.tiles);
  }

  /** The three rows written over the cleared square put the showcase
      objects in place. */
  lemma RowsPlaced(w1: WorldMap, wa: WorldMap, wb: WorldMap, w2: WorldMap)
    requires forall c :: c in w1 && InTestSquare(c) ==> w1[c] == PLAIN
    requires wa.Keys == w1.Keys && wb.Keys == wa.Keys && w2.Keys == wb.Keys
    requires forall c :: c in wa ==>
      wa[c] == if c.1 == -5 && 0 <= Column(c.0) < |BASE_ITEMS| then w1[c].(obj := BASE_ITEMS[Column(c.0)]) else w1[c]
    requires forall c :: c in wb ==>
      wb[c] == if c.1 == 0 && 0 <= Column(c.0) < |WALLS| then wa[c].(obj := WALLS[Column(c.0)]) else wa[c]
    requires forall c :: c in w2 ==>
      w2[c] == if c.1 == 5 && 0 <= Column(c.0) < |DOORS| then wb[c].(obj := DOORS[Column(c.0)]) else wb[c]
    ensures forall c :: c in w2 ==>
      w2[c] == if InTestSquare(c) then w1[c].(obj := TestObject(c.0, c.1)) else w1[c]
  {
    forall c | c in w2
      ensures w2[c] == if InTestSquare(c) then w1[c].(obj := TestObject(c.0, c.1)) else w1[c]
    {
      var i := Column(c.0);
      if 0 <= i {
        assert c.0 == 5 * i - 10;
      }
    }
  }

  /** The phases compose to the test world: the cleared square, the three
      rows of objects, then the two patches. */
  lemma TestWorldPhases(w0: WorldMap, w1: WorldMap, w2: WorldMap, w3: WorldMap)
    requires forall c :: c in w1 <==> c in w0 || InTestSquare(c)
    requires forall c :: c in w1 ==> w1[c] == if InTestSquare(c) then PLAIN else w0[c]
    requires w2.Keys == w1.Keys
    requires forall c :: c in w2 ==>
      w2[c] == if InTestSquare(c) then w1[c].(obj := TestObject(c.0, c.1)) else w1[c]
    requires w3.Keys == w2.Keys
    requires forall c :: c in w3 ==>
      w3[c] == w2[c].(
        terrain := if InPond(c.0, c.1) then Water else w2[c].terrain,
        floor := if InFloorPatch(c.0, c.1) then Wood else w2[c].floor)
    ensures w3 == TestWorld(w0)
  {
    TestWorldSpec(w0);
    forall c | c in w3
      ensures w3[c] == TestWorld(w0)[c]
    {
      if InTestSquare(c) {
        var (x, y) := c;
        assert w3[c] == TestTile(x, y);
      }
    }
  }

  /** `initWorld(playerX, playerY)`: the test world or the biome world. */
  method InitWorld(w: Store, useTestWorld: bool, seed: string, playerX: real, playerY: real)
    modifies w
    ensures w.tiles == if useTestWorld then TestWorld(old(w.tiles))
                       else Generated(old(w.tiles), FieldsOf(seed), TileOf(playerX), TileOf(playerY))
  {
    if useTestWorld {
      GenerateTestWorld(w, playerX, playerY);
    } else {
      GenerateBiomedWorld(w, seed, playerX, playerY);
    }
  }
}
