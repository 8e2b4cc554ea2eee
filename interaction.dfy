/**
 * Clicking, mining and building (interaction.ts): every frame the tile under
 * the pointer is looked at; a left click opens a nearby workbench, picks up
 * an item, shakes a tree or builds with the selected item; holding the right
 * button mines the tile until the progress reaches 1, and then the yield
 * table decides what is destroyed, what is added to the inventory and what
 * is dropped.  Every change is broadcast to the peers as a world update.
 */
module Interaction {
  import opened Wrappers
  import opened Types
  import opened World
  import opened Inventory

  // ---------------------------------------------------------------------
  // Rotation and building

  /** The side a wall or door is built on for a placement rotation:
      0 is `_t`, 1 `_r`, 2 `_b`, 3 `_l`; any other value builds nothing. */
  function PlacedSide(rotation: int): Option<Side>
  {
    if rotation == 0 then Some(Top)
    else if rotation == 1 then Some(Right)
    else if rotation == 2 then Some(Bottom)
    else if rotation == 3 then Some(Left)
    else None
  }

  /** The R key: `(placementRotation + 1) % 4`. */
  function Rotated(rotation: int): int
  {
    JsRem(rotation + 1, 4)
  }

  /** The items the build branch accepts. */
  predicate IsBuildItem(kind: string)
  {
    kind == "plywood" || kind == "workbench" || kind == "wall_item" || kind == "door_item"
  }

  /** `placeType` for a non-floor build item. */
  function BuildKind(kind: string, rotation: int): Option<ObjectKind>
  {
    if kind == "workbench" then Some(Workbench)
    else if kind == "wall_item" || kind == "door_item" then
      match PlacedSide(rotation)
      case None => None
      case Some(side) => Some(if kind == "wall_item" then Wall(side) else Door(side))
    else None
  }

  /** Rotating moves a wall clockwise through the four sides and comes back
      after four presses; an unreachable rotation places no wall or door. */
  lemma RotationCycle(rotation: int)
    requires 0 <= rotation < 4
    ensures 0 <= Rotated(rotation) < 4
    ensures Rotated(Rotated(Rotated(Rotated(rotation)))) == rotation
    ensures PlacedSide(rotation).Some? && PlacedSide(Rotated(rotation)).Some?
    ensures PlacedSide(Rotated(rotation)).value ==
      match PlacedSide(rotation).value
      case Top => Right
      case Right => Bottom
      case Bottom => Left
      case Left => Top
  {
  }

  lemma BuildKindSpec(kind: string, rotation: int)
    ensures BuildKind("workbench", rotation) == Some(Workbench)
    ensures BuildKind(kind, rotation).Some? <==>
      kind == "workbench" || ((kind == "wall_item" || kind == "door_item") && 0 <= rotation < 4)
    ensures kind == "wall_item" && 0 <= rotation < 4 ==> BuildKind(kind, rotation) == Some(Wall(PlacedSide(rotation).value))
    ensures kind == "door_item" && 0 <= rotation < 4 ==> BuildKind(kind, rotation) == Some(Door(PlacedSide(rotation).value))
  {
  }

  // ---------------------------------------------------------------------
  // Mining rules

  /** `TIER_1_TOOLS`. */
  predicate IsTier1(activeType: string)
  {
    activeType == "sharp_pebble" || activeType == "sharp_rock" || activeType == "stone_axe"
  }

  /** The mining time in milliseconds. */
  function MiningDuration(t: Target, activeType: string): int
  {
    if t == ObjectTarget(BigRock) then 2000
    else if t == FloorWood then 500
    else if t == ObjectTarget(Tree) && activeType == "stone_axe" then 1500
    else 300
  }

  /** `isMinable`: what can be mined with the item in hand. */
  predicate IsMinable(t: Target, activeType: string)
  {
    t == ObjectTarget(HighGrass) ||
    (t == ObjectTarget(Tree) && activeType == "stone_axe") ||
    (t == ObjectTarget(Tree) && activeType == "sharp_rock") ||
    (t == ObjectTarget(Stone) && IsTier1(activeType)) ||
    (t == ObjectTarget(BigRock) && IsTier1(activeType)) ||
    (t.ObjectTarget? && t.kind.Wall?) ||
    (t.ObjectTarget? && t.kind.Door?) ||
    t == FloorWood ||
    t == ObjectTarget(Workbench)
  }

  /** Every duration is positive and at most the big rock's, which is the
      only one that long; the item in hand matters only for a tree, which
      takes 1500 with the stone axe and 300 with anything else. */
  lemma DurationSpec(t: Target, activeType: string, other: string)
    ensures 0 < MiningDuration(t, activeType) <= 2000
    ensures MiningDuration(t, activeType) == 2000 <==> t == ObjectTarget(BigRock)
    ensures t != ObjectTarget(Tree) ==> MiningDuration(t, activeType) == MiningDuration(t, other)
    ensures MiningDuration(ObjectTarget(Tree), activeType) == 1500 <==> activeType == "stone_axe"
    ensures MiningDuration(FloorWood, activeType) == 500
    ensures MiningDuration(ObjectTarget(Tree), "sharp_rock") == 300
  {
  }

  /** What each target needs: grass, building parts and floors always; a
      tree an axe or a sharp rock; stone and big rock a tier-1 tool; water,
      bare grass and untouched tiles never. */
  lemma MinableSpec(t: Target, activeType: string)
    ensures (t == ObjectTarget(HighGrass) || t == FloorWood || t == ObjectTarget(Workbench) ||
             (t.ObjectTarget? && (t.kind.Wall? || t.kind.Door?))) ==> IsMinable(t, activeType)
    ensures t == ObjectTarget(Tree) ==> (IsMinable(t, activeType) <==> activeType == "stone_axe" || activeType == "sharp_rock")
    ensures t == ObjectTarget(Stone) || t == ObjectTarget(BigRock) ==> (IsMinable(t, activeType) <==> IsTier1(activeType))
    ensures t == WaterTarget || t == GrassTarget || t == ObjectTarget(NoObject) ==> !IsMinable(t, activeType)
    ensures !IsMinable(ObjectTarget(Stone), "hand") && !IsMinable(ObjectTarget(Tree), "sharp_pebble")
  {
  }

  /** `Math.min(elapsed / miningDuration, 1.0)`. */
  function Progress(elapsed: int, duration: int): real
    requires duration > 0
  {
    var p := elapsed as real / duration as real;
    if p <= 1.0 then p else 1.0
  }

  /** Progress never passes 1, is not negative for a non-negative elapsed
      time, and reaches 1 exactly when the whole duration has elapsed. */
  lemma {:induction false} ProgressSpec(elapsed: int, duration: int)
    requires duration > 0
    ensures Progress(elapsed, duration) <= 1.0
    ensures elapsed >= 0 ==> 0.0 <= Progress(elapsed, duration)
    ensures Progress(elapsed, duration) == 1.0 <==> elapsed >= duration
    ensures elapsed == 0 ==> Progress(elapsed, duration) == 0.0
  {
    var p := elapsed as real / duration as real;
    assert p * duration as real == elapsed as real;
    if elapsed >= duration {
      assert p >= 1.0;
    } else {
      assert p < 1.0;
    }
  }

  // ---------------------------------------------------------------------
  // The yield table and what is broadcast

  /** The outcome of mining a tile: whether its top layer is destroyed, the
      stack added to the inventory and the item dropped on the ground. */
  datatype Yield = Yield(destroys: bool, gain: Option<Item>, drop: Option<string>)

  /** The branches of the yield table.  `chance` and `pick` are the two
      `Math.random()` draws of the high-grass branch. */
  function YieldOf(t: Target, activeType: string, chance: real, pick: real): Yield
  {
    match t
    case ObjectTarget(k) =>
      (match k
       case HighGrass => Yield(true, None, if chance < 0.5 then Some(if pick > 0.5 then "stick" else "pebble") else None)
       case Tree =>
         if activeType == "sharp_rock" then Yield(false, Some(Item("bark", 1)), None)
         else if activeType == "stone_axe" then Yield(true, Some(Item("wood", 3)), None)
         else Yield(false, None, None)
       case Stone => Yield(true, Some(Item("rock", 1)), None)
       case BigRock => Yield(true, Some(Item("rock", 5)), None)
       case Wall(_) => Yield(true, None, Some("plywood"))
       case Door(_) => Yield(true, None, Some("door_item"))
       case Workbench => Yield(true, None, Some("plywood"))
       case NoObject => Yield(false, None, None))
    case FloorWood => Yield(true, None, Some("plywood"))
    case WaterTarget => Yield(false, None, None)
    case GrassTarget => Yield(false, None, None)
  }

  /** The yields, branch by branch. */
  lemma YieldSpec(t: Target, activeType: string, chance: real, pick: real)
    ensures t == ObjectTarget(Stone) ==> YieldOf(t, activeType, chance, pick) == Yield(true, Some(Item("rock", 1)), None)
    ensures t == ObjectTarget(BigRock) ==> YieldOf(t, activeType, chance, pick) == Yield(true, Some(Item("rock", 5)), None)
    ensures t == ObjectTarget(Tree) && activeType == "stone_axe" ==>
      YieldOf(t, activeType, chance, pick) == Yield(true, Some(Item("wood", 3)), None)
    ensures t == ObjectTarget(Tree) && activeType == "sharp_rock" ==>
      YieldOf(t, activeType, chance, pick) == Yield(false, Some(Item("bark", 1)), None)
    ensures (t == FloorWood || t == ObjectTarget(Workbench) || (t.ObjectTarget? && t.kind.Wall?)) ==>
      YieldOf(t, activeType, chance, pick) == Yield(true, None, Some("plywood"))
    ensures t.ObjectTarget? && t.kind.Door? ==> YieldOf(t, activeType, chance, pick) == Yield(true, None, Some("door_item"))
    ensures t == ObjectTarget(HighGrass) ==>
      var y := YieldOf(t, activeType, chance, pick);
      y.destroys && y.gain.None? && (y.drop.Some? <==> chance < 0.5) &&
      (y.drop.Some? ==> y.drop.value == "stick" || y.drop.value == "pebble")
  {
  }

  /** Mining only ever yields positive stacks of named items, and a target
      that can be mined is destroyed unless a sharp rock strips bark. */
  lemma YieldShape(t: Target, activeType: string, chance: real, pick: real)
    requires IsMinable(t, activeType)
    ensures var y := YieldOf(t, activeType, chance, pick);
      (y.gain.Some? ==> y.gain.value.count > 0 && y.gain.value.kind != "") &&
      (y.drop.Some? ==> y.drop.value != "") &&
      (y.destroys <==> !(t == ObjectTarget(Tree) && activeType == "sharp_rock"))
  {
  }

  /** What `syncDestroy` broadcasts: destroy_floor for 'floor_wood', else
      destroy_object. */
  function DestroyActionFor(t: Target): Action
  {
    if t == FloorWood then DestroyFloor else DestroyObject
  }

  /** Peers that apply the broadcast destroy remove the same layer as the
      local `destroyTileObject`: the interaction type names the object when
      there is one and the floor only when there is none. */
  lemma DestroyBroadcastAgrees(w: WorldMap, x: int, y: int)
    requires var t := InteractionType(TileAt(w, x, y)); t.ObjectTarget? || t == FloorWood
    ensures Applied(w, Update(x, y, DestroyActionFor(InteractionType(TileAt(w, x, y))))) == Destroyed(w, x, y)
  {
  }

  /** The world after mining, as the client computes it: destroy, then drop. */
  function Harvested(w: WorldMap, x: int, y: int, t: Target, activeType: string, chance: real, pick: real): WorldMap
  {
    var yl := YieldOf(t, activeType, chance, pick);
    var w1 := if yl.destroys then Destroyed(w, x, y) else w;
    if yl.drop.Some? then World.Dropped(w1, x, y, yl.drop.value) else w1
  }

  /** The updates broadcast for it, as written: the drop is announced on the
      mined tile itself. */
  function HarvestMessages(x: int, y: int, t: Target, activeType: string, chance: real, pick: real): seq<Update>
  {
    var yl := YieldOf(t, activeType, chance, pick);
    (if yl.destroys then [Update(x, y, DestroyActionFor(t))] else []) +
    (if yl.drop.Some? then [Update(x, y, PlaceItem(Some(yl.drop.value)))] else [])
  }

  /** The evident intent: announce the drop on the tile `dropItemOnGround`
      actually chose. */
  function HarvestMessagesCorrected(w: WorldMap, x: int, y: int, t: Target, activeType: string, chance: real, pick: real): seq<Update>
  {
    var yl := YieldOf(t, activeType, chance, pick);
    var w1 := if yl.destroys then Destroyed(w, x, y) else w;
    var c := if yl.drop.Some? then DropTarget(w1, x, y) else (x, y);
    (if yl.destroys then [Update(x, y, DestroyActionFor(t))] else []) +
    (if yl.drop.Some? then [Update(c.0, c.1, PlaceItem(Some(yl.drop.value)))] else [])
  }

  lemma AppliedTwo(w: WorldMap, a: Update, b: Update)
    ensures AppliedAll(w, [a, b]) == Applied(Applied(w, a), b)
  {
    assert [a, b][1..] == [b];
    assert [b][1..] == [];
    assert AppliedAll(w, [a, b]) == AppliedAll(Applied(w, a), [b]);
    assert AppliedAll(Applied(w, a), [b]) == AppliedAll(Applied(Applied(w, a), b), []);
  }

  /** With the corrected messages a peer holding the same map reaches the
      same map as the miner, whatever was mined. */
  lemma HarvestReplicates(w: WorldMap, x: int, y: int, activeType: string, chance: real, pick: real)
    requires IsMinable(InteractionType(TileAt(w, x, y)), activeType)
    ensures var t := InteractionType(TileAt(w, x, y));
      AppliedAll(w, HarvestMessagesCorrected(w, x, y, t, activeType, chance, pick)) == Harvested(w, x, y, t, activeType, chance, pick)
  {
    var t := InteractionType(TileAt(w, x, y));
    var yl := YieldOf(t, activeType, chance, pick);
    YieldShape(t, activeType, chance, pick);
    var w1 := if yl.destroys then Destroyed(w, x, y) else w;
    var ms := HarvestMessagesCorrected(w, x, y, t, activeType, chance, pick);
    if yl.destroys {
      DestroyBroadcastAgrees(w, x, y);
      var d := Update(x, y, DestroyActionFor(t));
      if yl.drop.Some? {
        var c := DropTarget(w1, x, y);
        AppliedTwo(w, d, Update(c.0, c.1, PlaceItem(Some(yl.drop.value))));
      } else {
        assert ms == [d];
        assert AppliedAll(w, ms) == AppliedAll(Applied(w, d), []);
      }
    } else {
      assert yl.drop.None?;
      assert ms == [];
    }
  }

  /** The messages as written leave a peer with a different map: high grass
      with a stick already on it is cut, the tile still holds the stick, so
      the pebble falls on the tile to the north, but the peers are told to
      put it on the grass tile. */
  lemma HarvestDropDiverges()
    ensures var w := map[(0, 0) := Tile(Grass, NoFloor, HighGrass, ["stick"])];
      var t := InteractionType(TileAt(w, 0, 0));
      IsMinable(t, "hand") &&
      AppliedAll(w, HarvestMessages(0, 0, t, "hand", 0.0, 0.0)) != Harvested(w, 0, 0, t, "hand", 0.0, 0.0)
  {
    var w := map[(0, 0) := Tile(Grass, NoFloor, HighGrass, ["stick"])];
    var t := InteractionType(TileAt(w, 0, 0));
    assert t == ObjectTarget(HighGrass);
    var w1 := Destroyed(w, 0, 0);
    assert !CanDropAt(w1, 0, 0);
    assert CanDropAt(w1, 0, -1);
    assert FreeIndex(w1, 0, 0, 0) == 0;
    var local := Harvested(w, 0, 0, t, "hand", 0.0, 0.0);
    assert (0, -1) in local;
    var d := Update(0, 0, DestroyObject);
    var p := Update(0, 0, PlaceItem(Some("pebble")));
    assert HarvestMessages(0, 0, t, "hand", 0.0, 0.0) == [d, p];
    AppliedTwo(w, d, p);
    var remote := Applied(Applied(w, d), p);
    assert remote.Keys == {(0, 0)};
  }

  // ---------------------------------------------------------------------
  // Left clicks

  /** Which branch of the left-click handler runs. */
  datatype Click = TooSoon | OpenBench | Pickup | Shake | BuildFloor | BuildObject(obj: ObjectKind) | NoClick

  /** The branch for a click at (wx, wy) on tile (x, y) by a player standing
      on tile (px, py), `sinceLast` milliseconds after the last interaction;
      `dist < 2` is compared squared. */
  function ClickOf(w: WorldMap, players: seq<(real, real)>, x: int, y: int, wx: real, wy: real,
                   px: int, py: int, sinceLast: int, active: Slot, rotation: int): Click
  {
    var t := InteractionType(TileAt(w, x, y));
    if sinceLast <= 250 then TooSoon
    else if t == ObjectTarget(Workbench) && (px - x) * (px - x) + (py - y) * (py - y) < 4 then OpenBench
    else if PeekItem(w, wx, wy).Some? && PeekItem(w, wx, wy).value != "" then Pickup
    else if t == ObjectTarget(Tree) then Shake
    else if active.Some? && IsBuildItem(active.value.kind) then
      var isFloor := active.value.kind == "plywood";
      if !Placeable(w, x, y, isFloor, players) then NoClick
      else if isFloor then BuildFloor
      else match BuildKind(active.value.kind, rotation)
           case Some(k) => BuildObject(k)
           case None => NoClick
    else NoClick
  }

  /** Building happens only with a build item in hand, on a placeable tile
      with no tree and no item on top (an empty-string item reads as none),
      and places what the item and the rotation name; a pickup needs a
      non-empty top item, and a tree without one is shaken. */
  lemma ClickBuildSpec(w: WorldMap, players: seq<(real, real)>, x: int, y: int, wx: real, wy: real,
                       px: int, py: int, sinceLast: int, active: Slot, rotation: int)
    requires x == TileOf(wx) && y == TileOf(wy)
    ensures var c := ClickOf(w, players, x, y, wx, wy, px, py, sinceLast, active, rotation);
      var s := TileAt(w, x, y).items;
      (c == BuildFloor ==>
         active.Some? && active.value.kind == "plywood" && Placeable(w, x, y, true, players) &&
         (|s| == 0 || s[|s| - 1] == "") && TileAt(w, x, y).floor == NoFloor && TileAt(w, x, y).terrain != Water) &&
      (c.BuildObject? ==>
         active.Some? && Some(c.obj) == BuildKind(active.value.kind, rotation) && Placeable(w, x, y, false, players) &&
         (|s| == 0 || s[|s| - 1] == "") && TileAt(w, x, y).obj != Tree)
    ensures ClickOf(w, players, x, y, wx, wy, px, py, sinceLast, active, rotation) == OpenBench <==>
      sinceLast > 250 && TileAt(w, x, y).obj == Workbench && (px - x) * (px - x) + (py - y) * (py - y) < 4
    ensures var s := TileAt(w, x, y).items;
      sinceLast > 250 && |s| > 0 && s[|s| - 1] != "" && TileAt(w, x, y).obj != Workbench ==>
      ClickOf(w, players, x, y, wx, wy, px, py, sinceLast, active, rotation) == Pickup
    ensures var s := TileAt(w, x, y).items;
      ClickOf(w, players, x, y, wx, wy, px, py, sinceLast, active, rotation) == Pickup ==> |s| > 0 && s[|s| - 1] != ""
    ensures var s := TileAt(w, x, y).items;
      sinceLast > 250 && (|s| == 0 || s[|s| - 1] == "") && TileAt(w, x, y).obj == Tree ==>
      ClickOf(w, players, x, y, wx, wy, px, py, sinceLast, active, rotation) == Shake
  {
  }

  /** For every click the handler takes, a peer applying the broadcast
      updates reaches the same map: the pickup branch runs only on a
      non-empty top item, which is then removed, announced and added to the
      inventory. */
  lemma ClickSyncs(w: WorldMap, s: seq<Slot>, players: seq<(real, real)>, x: int, y: int, wx: real, wy: real,
                   px: int, py: int, sinceLast: int, active: Slot, rotation: int, shake: real)
    requires x == TileOf(wx) && y == TileOf(wy)
    ensures var c := ClickOf(w, players, x, y, wx, wy, px, py, sinceLast, active, rotation);
      var (w', s', us) := ClickEffect(w, s, c, x, y, shake, active, false);
      AppliedAll(w, us) == w' &&
      (c == Pickup ==> us == [Update(x, y, PickupItem)] && s' == Added(Normalized(s), PeekItem(w, wx, wy).value, 1))
  {
    var c := ClickOf(w, players, x, y, wx, wy, px, py, sinceLast, active, rotation);
    ClickEffectSpec(w, s, c, x, y, shake, active);
    PeekThenPickup(w, wx, wy);
  }

  /** The map, the slots and the broadcast updates after a click of the
      given branch; `shake` is the `Math.random()` draw of the tree branch. */
  function ClickEffect(w: WorldMap, s: seq<Slot>, c: Click, x: int, y: int, shake: real, active: Slot, offline: bool)
    : (WorldMap, seq<Slot>, seq<Update>)
  {
    var n := Normalized(s);
    var (item, picked) := PickedUp(w, x, y);
    match c
    case Pickup =>
      if item.Some? then (picked, Added(n, item.value, 1), if offline then [] else [Update(x, y, PickupItem)])
      else (picked, s, [])
    case Shake => (w, if shake < 0.4 then Added(n, "stick", 1) else s, [])
    case BuildFloor => (WithFloor(w, x, y), Added(n, "plywood", -1), if offline then [] else [Update(x, y, PlaceFloor)])
    case BuildObject(k) =>
      (WithObject(w, x, y, k), if active.Some? then Added(n, active.value.kind, -1) else s,
       if offline then [] else [Update(x, y, PlaceObject(Some(k)))])
    case _ => (w, s, [])
  }

  /** What a click changes: the world only on the clicked tile, the stack of
      that tile only by its top item, and the inventory only with the item
      picked up, a stick, or the build item spent; a peer applying the
      broadcast updates reaches the same map. */
  lemma ClickEffectSpec(w: WorldMap, s: seq<Slot>, c: Click, x: int, y: int, shake: real, active: Slot)
    ensures var (w', _, us) := ClickEffect(w, s, c, x, y, shake, active, false);
      (forall d :: d in w && d != (x, y) ==> d in w' && w'[d] == w[d]) &&
      w'.Keys <= w.Keys + {(x, y)} &&
      (c.Pickup? || c.BuildFloor? || c.BuildObject? || w' == w) &&
      (c.Pickup? && us != [] ==> AppliedAll(w, us) == w') &&
      (!c.Pickup? ==> AppliedAll(w, us) == w')
    ensures c == Shake ==> ClickEffect(w, s, c, x, y, shake, active, false).2 == []
  {
    var (w', _, us) := ClickEffect(w, s, c, x, y, shake, active, false);
    match c {
      case Pickup =>
        var (item, picked) := PickedUp(w, x, y);
        if item.Some? {
          assert us == [Update(x, y, PickupItem)];
          assert AppliedAll(w, us) == AppliedAll(Applied(w, us[0]), []);
        }
      case BuildFloor =>
        PlacementsAreUpdates(w, x, y, NoObject);
        assert AppliedAll(w, us) == AppliedAll(Applied(w, us[0]), []);
      case BuildObject(k) =>
        PlacementsAreUpdates(w, x, y, k);
        assert AppliedAll(w, us) == AppliedAll(Applied(w, us[0]), []);
      case _ =>
    }
  }

  /** Whether a right-button frame completes the mining, given the mining
      state before it. */
  predicate Fires(key: Option<Coord>, start: int, duration: int, rightDown: bool, now: int,
                  x: int, y: int, px: int, py: int, t: Target, activeType: string)
    requires duration > 0
  {
    var newTarget := key != Some((x, y));
    var s := if newTarget then now else start;
    var d := if newTarget then MiningDuration(t, activeType) else duration;
    rightDown && (px - x) * (px - x) + (py - y) * (py - y) <= 16 && IsMinable(t, activeType) &&
    d > 0 && Progress(now - s, d) >= 1.0
  }

  /** Mining fires only with the right button held, within four tiles, on a
      minable target, once its whole duration has elapsed; a new target
      never fires in the frame it is chosen. */
  lemma FiresSpec(key: Option<Coord>, start: int, duration: int, rightDown: bool, now: int,
                  x: int, y: int, px: int, py: int, t: Target, activeType: string)
    requires duration > 0
    ensures Fires(key, start, duration, rightDown, now, x, y, px, py, t, activeType) <==>
      rightDown && (px - x) * (px - x) + (py - y) * (py - y) <= 16 && IsMinable(t, activeType) &&
      key == Some((x, y)) && now - start >= duration
  {
    DurationSpec(t, activeType, activeType);
    if key == Some((x, y)) {
      ProgressSpec(now - start, duration);
    } else {
      ProgressSpec(0, MiningDuration(t, activeType));
    }
  }

  // ---------------------------------------------------------------------
  // The module state

  class Interaction {
    /** `placementRotation`. */
    var rotation: int
    /** `lastRotateTime` of the frame loop, which steps the rotation. */
    var lastRotateTime: int
    var miningStartTime: int
    /** `miningTargetKey`; `""` is None. */
    var miningTargetKey: Option<Coord>
    var currentMiningProgress: real
    var currentMiningTargetX: int
    var currentMiningTargetY: int
    var miningDuration: int
    var lastInteractionTime: int

    constructor ()
      ensures rotation == 0 && lastRotateTime == 0 && miningStartTime == 0 && miningTargetKey.None?
      ensures currentMiningProgress == 0.0 && currentMiningTargetX == 0 && currentMiningTargetY == 0
      ensures miningDuration == 300 && lastInteractionTime == 0
    {
      rotation, lastRotateTime := 0, 0;
      miningStartTime, miningTargetKey := 0, None;
      currentMiningProgress, currentMiningTargetX, currentMiningTargetY := 0.0, 0, 0;
      miningDuration, lastInteractionTime := 300, 0;
    }

    /** The R key in the frame loop: at most one step every 200 ms. */
    method RotateKey(pressed: bool, now: int)
      modifies this
      ensures if pressed && now - old(lastRotateTime) > 200
              then rotation == Rotated(old(rotation)) && lastRotateTime == now
              else rotation == old(rotation) && lastRotateTime == old(lastRotateTime)
      ensures miningStartTime == old(miningStartTime) && miningTargetKey == old(miningTargetKey)
      ensures currentMiningProgress == old(currentMiningProgress) && miningDuration == old(miningDuration)
      ensures currentMiningTargetX == old(currentMiningTargetX) && currentMiningTargetY == old(currentMiningTargetY)
      ensures lastInteractionTime == old(lastInteractionTime)
    {
      if pressed && now - lastRotateTime > 200 {
        var r := rotation + 1;
        rotation := if r >= 0 then r % 4 else -((-r) % 4);
        lastRotateTime := now;
      }
    }

    /** `handleInteraction(me)` for the pointer at world position (wx, wy)
        and the local player at (meX, meY).  `shake`, `chance` and `pick`
        are the `Math.random()` draws; `players` are all player positions. */
    method HandleInteraction(store: Store, bag: Bag, players: seq<(real, real)>, chatOpen: bool, now: int,
                             wx: real, wy: real, meX: real, meY: real, leftDown: bool, rightDown: bool,
                             shake: real, chance: real, pick: real, offline: bool)
      returns (emitted: seq<Update>, releaseLeft: bool)
      requires miningDuration > 0
      modifies this, store, bag
      ensures miningDuration > 0
      ensures old(bag.inventoryOpen) || chatOpen ==>
        currentMiningProgress == 0.0 && store.tiles == old(store.tiles) && bag.slots == old(bag.slots) &&
        emitted == [] && !releaseLeft && miningTargetKey == old(miningTargetKey) &&
        lastInteractionTime == old(lastInteractionTime) &&
        miningStartTime == old(miningStartTime) && miningDuration == old(miningDuration) &&
        currentMiningTargetX == old(currentMiningTargetX) && currentMiningTargetY == old(currentMiningTargetY) &&
        bag.inventoryOpen == old(bag.inventoryOpen) && bag.workbenchActive == old(bag.workbenchActive) &&
        bag.dragging == old(bag.dragging)
      ensures !old(bag.inventoryOpen) && !chatOpen && leftDown ==>
        var x, y := TileOf(wx), TileOf(wy);
        var n := Normalized(old(bag.slots));
        var active := if 0 <= old(bag.selected) < INVENTORY_SIZE then n[old(bag.selected)] else None;
        var c := ClickOf(old(store.tiles), players, x, y, wx, wy, TileOf(meX), TileOf(meY),
                         now - old(lastInteractionTime), active, rotation);
        (store.tiles, bag.slots, emitted) == ClickEffect(old(store.tiles), n, c, x, y, shake, active, offline) &&
        releaseLeft == (c == OpenBench) &&
        lastInteractionTime == (if c != TooSoon && c != NoClick then now else old(lastInteractionTime)) &&
        (c == OpenBench ==> bag.inventoryOpen == !old(bag.inventoryOpen) && bag.workbenchActive == bag.inventoryOpen) &&
        (c != OpenBench ==> bag.workbenchActive == old(bag.workbenchActive) && bag.inventoryOpen == old(bag.inventoryOpen)) &&
        bag.dragging == (old(bag.dragging) && (c != OpenBench || bag.inventoryOpen)) &&
        miningTargetKey == old(miningTargetKey) && currentMiningProgress == old(currentMiningProgress) &&
        miningStartTime == old(miningStartTime) && miningDuration == old(miningDuration) &&
        currentMiningTargetX == old(currentMiningTargetX) && currentMiningTargetY == old(currentMiningTargetY)
      ensures !old(bag.inventoryOpen) && !chatOpen && !leftDown ==>
        var x, y := TileOf(wx), TileOf(wy);
        var n := Normalized(old(bag.slots));
        var active := if 0 <= old(bag.selected) < INVENTORY_SIZE then n[old(bag.selected)] else None;
        var activeType := if active.Some? then active.value.kind else "hand";
        var t := InteractionType(TileAt(old(store.tiles), x, y));
        var fire := Fires(old(miningTargetKey), old(miningStartTime), old(miningDuration), rightDown, now,
                          x, y, TileOf(meX), TileOf(meY), t, activeType);
        var g := YieldOf(t, activeType, chance, pick).gain;
        !releaseLeft && lastInteractionTime == old(lastInteractionTime) &&
        store.tiles == (if fire then Harvested(old(store.tiles), x, y, t, activeType, chance, pick) else old(store.tiles)) &&
        bag.slots == (if fire && g.Some? then Added(n, g.value.kind, g.value.count) else n) &&
        emitted == (if fire && !offline then HarvestMessages(x, y, t, activeType, chance, pick) else []) &&
        bag.inventoryOpen == old(bag.inventoryOpen) && bag.workbenchActive == old(bag.workbenchActive) &&
        bag.dragging == old(bag.dragging)
      ensures !old(bag.inventoryOpen) && !chatOpen && !leftDown ==>
        var x, y := TileOf(wx), TileOf(wy);
        var px, py := TileOf(meX), TileOf(meY);
        var n := Normalized(old(bag.slots));
        var active := if 0 <= old(bag.selected) < INVENTORY_SIZE then n[old(bag.selected)] else None;
        var activeType := if active.Some? then active.value.kind else "hand";
        var t := InteractionType(TileAt(old(store.tiles), x, y));
        var near := (px - x) * (px - x) + (py - y) * (py - y) <= 16;
        (!rightDown ==> miningTargetKey.None? && miningStartTime == 0 && currentMiningProgress == 0.0 &&
                        miningDuration == old(miningDuration)) &&
        (rightDown && !near ==> currentMiningProgress == 0.0 && miningTargetKey == old(miningTargetKey) &&
                                miningStartTime == old(miningStartTime) && miningDuration == old(miningDuration)) &&
        (rightDown && near ==>
          var newTarget := old(miningTargetKey) != Some((x, y));
          var start := if newTarget then now else old(miningStartTime);
          miningTargetKey == Some((x, y)) &&
          miningDuration == (if newTarget then MiningDuration(t, activeType) else old(miningDuration)) &&
          currentMiningProgress == (if IsMinable(t, activeType) then Progress(now - start, miningDuration) else 0.0) &&
          miningStartTime == (if currentMiningProgress >= 1.0 then now else start)) &&
        (currentMiningTargetX, currentMiningTargetY) ==
          (if rightDown && near && IsMinable(t, activeType) then (x, y)
           else (old(currentMiningTargetX), old(currentMiningTargetY)))
      ensures rotation == old(rotation) && bag.equipment == old(bag.equipment) && bag.selected == old(bag.selected)
      ensures lastRotateTime == old(lastRotateTime) && bag.dragSource == old(bag.dragSource)
    {
      emitted, releaseLeft := [], false;
      if bag.inventoryOpen || chatOpen {
        currentMiningProgress := 0.0;
        return;
      }
      var x, y := TileOf(wx), TileOf(wy);
      var t := InteractionType(TileAt(store.tiles, x, y));
      var active := bag.SelectedItem();
      if leftDown {
        var acted;
        emitted, releaseLeft, acted := LeftClick(store, bag, players, now - lastInteractionTime, wx, wy,
                                                 TileOf(meX), TileOf(meY), active, rotation, shake, offline);
        if acted {
          lastInteractionTime := now;
        }
        return;
      }
      var activeType := if active.Some? then active.value.kind else "hand";
      var fire := Mine(rightDown, now, x, y, TileOf(meX), TileOf(meY), t, activeType);
      if fire {
        emitted := Harvest(store, bag, x, y, t, activeType, chance, pick, offline);
      }
    }

    /** The right-button path of `handleInteraction`: returns whether the
        mining completes in this frame. */
    method Mine(rightDown: bool, now: int, x: int, y: int, px: int, py: int, t: Target, activeType: string)
      returns (fire: bool)
      requires miningDuration > 0
      modifies this
      ensures miningDuration > 0
      ensures fire == Fires(old(miningTargetKey), old(miningStartTime), old(miningDuration), rightDown, now, x, y, px, py, t, activeType)
      ensures !rightDown ==>
        !fire && miningTargetKey.None? && miningStartTime == 0 && currentMiningProgress == 0.0 &&
        miningDuration == old(miningDuration)
      ensures rightDown && (px - x) * (px - x) + (py - y) * (py - y) > 16 ==>
        !fire && currentMiningProgress == 0.0 && miningTargetKey == old(miningTargetKey) &&
        miningStartTime == old(miningStartTime) && miningDuration == old(miningDuration)
      ensures rightDown && (px - x) * (px - x) + (py - y) * (py - y) <= 16 ==>
        var newTarget := old(miningTargetKey) != Some((x, y));
        var start := if newTarget then now else old(miningStartTime);
        miningTargetKey == Some((x, y)) &&
        miningDuration == (if newTarget then MiningDuration(t, activeType) else old(miningDuration)) &&
        currentMiningProgress == (if IsMinable(t, activeType) then Progress(now - start, miningDuration) else 0.0) &&
        (fire <==> currentMiningProgress >= 1.0) &&
        miningStartTime == (if fire then now else start)
      ensures (currentMiningTargetX, currentMiningTargetY) ==
        if rightDown && (px - x) * (px - x) + (py - y) * (py - y) <= 16 && IsMinable(t, activeType) then (x, y)
        else (old(currentMiningTargetX), old(currentMiningTargetY))
      ensures rotation == old(rotation) && lastRotateTime == old(lastRotateTime) && lastInteractionTime == old(lastInteractionTime)
    {
      if !rightDown {
        miningTargetKey, miningStartTime, currentMiningProgress := None, 0, 0.0;
        return false;
      }
      if (px - x) * (px - x) + (py - y) * (py - y) > 16 {
        currentMiningProgress := 0.0;
        return false;
      }
      var key := (x, y);
      var duration := MiningDuration(t, activeType);
      if miningTargetKey != Some(key) {
        miningTargetKey, miningStartTime, miningDuration := Some(key), now, duration;
      }
      if IsMinable(t, activeType) {
        var elapsed := now - miningStartTime;
        var p := elapsed as real / miningDuration as real;
        currentMiningProgress := if p <= 1.0 then p else 1.0;
        currentMiningTargetX, currentMiningTargetY := x, y;
      } else {
        currentMiningProgress := 0.0;
      }
      if currentMiningProgress < 1.0 {
        return false;
      }
      miningStartTime := now;
      return true;
    }

    /** The left-button path of `handleInteraction`.  `releaseLeft` is the
        write of `isLeftMouseDown = false`; `shake` is the `Math.random()`
        draw of the tree branch. */
    static method LeftClick(store: Store, bag: Bag, players: seq<(real, real)>, sinceLast: int, wx: real, wy: real,
                            px: int, py: int, active: Slot, rotation: int, shake: real, offline: bool)
      returns (emitted: seq<Update>, releaseLeft: bool, acted: bool)
      modifies store, bag
      ensures var x, y := TileOf(wx), TileOf(wy);
        var c := ClickOf(old(store.tiles), players, x, y, wx, wy, px, py, sinceLast, active, rotation);
        acted == (c != TooSoon && c != NoClick) &&
        releaseLeft == (c == OpenBench) &&
        (c == OpenBench ==> bag.inventoryOpen == !old(bag.inventoryOpen) && bag.workbenchActive == bag.inventoryOpen) &&
        (c != OpenBench ==> bag.workbenchActive == old(bag.workbenchActive) && bag.inventoryOpen == old(bag.inventoryOpen)) &&
        bag.dragging == (old(bag.dragging) && (c != OpenBench || bag.inventoryOpen)) &&
        (store.tiles, bag.slots, emitted) == ClickEffect(old(store.tiles), old(bag.slots), c, x, y, shake, active, offline)
      ensures bag.equipment == old(bag.equipment) && bag.selected == old(bag.selected) && bag.dragSource == old(bag.dragSource)
    {
      var x, y := TileOf(wx), TileOf(wy);
      var t := InteractionType(TileAt(store.tiles, x, y));
      emitted, releaseLeft, acted := [], false, false;
      if sinceLast <= 250 {
        return;
      }
      if t == ObjectTarget(Workbench) && (px - x) * (px - x) + (py - y) * (py - y) < 4 {
        OpenWorkbench(bag);
        return [], true, true;
      }
      if PeekItem(store.tiles, wx, wy).Some? && PeekItem(store.tiles, wx, wy).value != "" {
        emitted := Pickup(store, bag, x, y, offline);
        return emitted, false, true;
      }
      if t == ObjectTarget(Tree) {
        ShakeTree(bag, shake);
        return [], false, true;
      }
      if active.Some? && IsBuildItem(active.value.kind) {
        acted, emitted := Build(store, bag, players, x, y, active.value.kind, rotation, offline);
      }
    }

    /** The workbench branch: `setWorkbenchActive(true)`, then `toggleInventory()`. */
    static method OpenWorkbench(bag: Bag)
      modifies bag
      ensures bag.inventoryOpen == !old(bag.inventoryOpen) && bag.workbenchActive == bag.inventoryOpen
      ensures bag.dragging == (old(bag.dragging) && bag.inventoryOpen)
      ensures bag.slots == old(bag.slots) && bag.equipment == old(bag.equipment) && bag.selected == old(bag.selected)
      ensures bag.dragSource == old(bag.dragSource)
    {
      bag.SetWorkbenchActive(true);
      bag.ToggleInventory();
    }

    /** The tree branch: a stick with probability 0.4. */
    static method ShakeTree(bag: Bag, shake: real)
      modifies bag
      ensures bag.slots == if shake < 0.4 then Added(Normalized(old(bag.slots)), "stick", 1) else old(bag.slots)
      ensures bag.equipment == old(bag.equipment) && bag.selected == old(bag.selected) && bag.workbenchActive == old(bag.workbenchActive)
      ensures bag.inventoryOpen == old(bag.inventoryOpen) && bag.dragging == old(bag.dragging) && bag.dragSource == old(bag.dragSource)
    {
      if shake < 0.4 {
        bag.AddItem("stick", 1);
      }
    }

    /** The pickup branch: pop the top item, add it, announce it. */
    static method Pickup(store: Store, bag: Bag, x: int, y: int, offline: bool) returns (emitted: seq<Update>)
      modifies store, bag
      ensures var (item, w') := PickedUp(old(store.tiles), x, y);
        store.tiles == w' &&
        bag.slots == (if item.Some? then Added(Normalized(old(bag.slots)), item.value, 1) else old(bag.slots)) &&
        emitted == (if item.Some? && !offline then [Update(x, y, PickupItem)] else [])
      ensures bag.equipment == old(bag.equipment) && bag.selected == old(bag.selected) && bag.workbenchActive == old(bag.workbenchActive)
      ensures bag.inventoryOpen == old(bag.inventoryOpen) && bag.dragging == old(bag.dragging) && bag.dragSource == old(bag.dragSource)
    {
      var item := store.PickupItemAt(x, y);
      emitted := [];
      if item.Some? {
        bag.AddItem(item.value, 1);
        if !offline {
          emitted := [Update(x, y, PickupItem)];
        }
      }
    }

    /** The build branch: place the floor or the object the item and the
        rotation name, and spend one item with `addItem(type, -1)`. */
    static method Build(store: Store, bag: Bag, players: seq<(real, real)>, x: int, y: int, kind: string, rotation: int, offline: bool)
      returns (built: bool, emitted: seq<Update>)
      requires IsBuildItem(kind)
      modifies store, bag
      ensures var isFloor := kind == "plywood";
        var k := BuildKind(kind, rotation);
        built == (Placeable(old(store.tiles), x, y, isFloor, players) && (isFloor || k.Some?)) &&
        store.tiles == (if !built then old(store.tiles) else if isFloor then WithFloor(old(store.tiles), x, y) else WithObject(old(store.tiles), x, y, k.value)) &&
        bag.slots == (if built then Added(Normalized(old(bag.slots)), kind, -1) else old(bag.slots)) &&
        emitted == (if !built || offline then [] else if isFloor then [Update(x, y, PlaceFloor)] else [Update(x, y, PlaceObject(k))])
      ensures bag.equipment == old(bag.equipment) && bag.selected == old(bag.selected) && bag.workbenchActive == old(bag.workbenchActive)
      ensures bag.inventoryOpen == old(bag.inventoryOpen) && bag.dragging == old(bag.dragging) && bag.dragSource == old(bag.dragSource)
    {
      var isFloor := kind == "plywood";
      emitted := [];
      var ok := store.CanPlaceObject(x, y, isFloor, players);
      if !ok {
        return false, [];
      }
      if isFloor {
        store.PlaceFloor(x, y);
        bag.AddItem("plywood", -1);
        if !offline {
          emitted := [Update(x, y, PlaceFloor)];
        }
        return true, emitted;
      }
      var placeType := BuildKind(kind, rotation);
      if placeType.Some? {
        store.PlaceObject(x, y, placeType.value);
        bag.AddItem(kind, -1);
        if !offline {
          emitted := [Update(x, y, PlaceObject(placeType))];
        }
        return true, emitted;
      }
      return false, [];
    }

    /** What happens when mining completes: `syncDestroy`, the inventory
        gain and `syncDrop` (one item, on the mined tile). */
    static method Harvest(store: Store, bag: Bag, x: int, y: int, t: Target, activeType: string,
                          chance: real, pick: real, offline: bool)
      returns (emitted: seq<Update>)
      modifies store, bag
      ensures store.tiles == Harvested(old(store.tiles), x, y, t, activeType, chance, pick)
      ensures var g := YieldOf(t, activeType, chance, pick).gain;
        bag.slots == if g.Some? then Added(Normalized(old(bag.slots)), g.value.kind, g.value.count) else old(bag.slots)
      ensures emitted == if offline then [] else HarvestMessages(x, y, t, activeType, chance, pick)
      ensures bag.equipment == old(bag.equipment) && bag.selected == old(bag.selected) && bag.workbenchActive == old(bag.workbenchActive)
      ensures bag.inventoryOpen == old(bag.inventoryOpen) && bag.dragging == old(bag.dragging) && bag.dragSource == old(bag.dragSource)
    {
      var yl := YieldOf(t, activeType, chance, pick);
      emitted := [];
      if yl.destroys {
        store.DestroyTileObject(x, y);
        if !offline {
          emitted := [Update(x, y, DestroyActionFor(t))];
        }
      }
      if yl.gain.Some? {
        bag.AddItem(yl.gain.value.kind, yl.gain.value.count);
      }
      if yl.drop.Some? {
        store.DropItemOnGround(x, y, yl.drop.value);
        if !offline {
          emitted := emitted + [Update(x, y, PlaceItem(Some(yl.drop.value)))];
        }
      }
    }
  }
}
