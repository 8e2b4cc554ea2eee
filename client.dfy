/**
 * The browser client's game state (index.tsx): the late-join start, the
 * reconciliation of the local player with the server's snapshot, and one
 * frame of the game loop (offline clock, energy, speed, facing and the
 * per-axis collision-gated step).  The local world is a World.Store.
 */
module Client {
  import opened Wrappers
  import opened Types
  import opened World
  import opened Generation
  import opened Physics

  /** The held movement keys of one frame. */
  datatype Keys = Keys(up: bool, down: bool, left: bool, right: bool, sprint: bool)

  function AbsReal(r: real): real { if r < 0.0 then -r else r }

  // ---------------------------------------------------------------------
  // Reconciliation with the server's snapshot

  /** hp, maxHp, hunger, xp and level come from the server; energy only
      when the two differ by more than 5. */
  function MergedStats(mine: Stats, server: Stats): Stats
  {
    mine.(hp := server.hp, maxHp := server.maxHp, hunger := server.hunger, xp := server.xp,
          level := server.level,
          energy := if AbsReal(mine.energy - server.energy) > 5.0 then server.energy else mine.energy)
  }

  /** `dist > 150`, compared squared. */
  predicate Diverged(me: Player, serverMe: Player)
  {
    (me.x - serverMe.x) * (me.x - serverMe.x) + (me.y - serverMe.y) * (me.y - serverMe.y) > 22500.0
  }

  /** The players map after `onState`: the server's, with the local player
      replaced by the local object unless the two have diverged. */
  function Reconciled(players: map<string, Player>, localId: string, serverPlayers: map<string, Player>): map<string, Player>
  {
    if localId in players && localId in serverPlayers then
      var me := players[localId].(stats := MergedStats(players[localId].stats, serverPlayers[localId].stats));
      if Diverged(me, serverPlayers[localId]) then serverPlayers else serverPlayers[localId := me]
    else serverPlayers
  }

  /** The copied statistics match the server's, the kept energy is within 5
      of it, and nothing else of the local statistics changes. */
  lemma MergedStatsSpec(mine: Stats, server: Stats)
    ensures var s := MergedStats(mine, server);
      s.hp == server.hp && s.maxHp == server.maxHp && s.hunger == server.hunger &&
      s.xp == server.xp && s.level == server.level &&
      AbsReal(s.energy - server.energy) <= 5.0 &&
      (AbsReal(mine.energy - server.energy) <= 5.0 ==> s.energy == mine.energy) &&
      s.maxHunger == mine.maxHunger && s.mana == mine.mana && s.maxMana == mine.maxMana &&
      s.maxEnergy == mine.maxEnergy && s.maxXp == mine.maxXp
  {
  }

  /** Snap or trust: every other player is the server's; the local player
      is the local object (position, inventory, facing) with merged
      statistics when within 150, else the server's record. */
  lemma ReconciledSpec(players: map<string, Player>, localId: string, serverPlayers: map<string, Player>)
    ensures var r := Reconciled(players, localId, serverPlayers);
      r.Keys == serverPlayers.Keys &&
      (forall id :: id in r && id != localId ==> r[id] == serverPlayers[id]) &&
      (localId in players && localId in serverPlayers ==>
        var me, sm := players[localId], serverPlayers[localId];
        (Diverged(me, sm) ==> r[localId] == sm) &&
        (!Diverged(me, sm) ==> r[localId] == me.(stats := MergedStats(me.stats, sm.stats))))
  {
  }

  /** A snap throws the local record away: a local inventory the server
      does not know of is lost. */
  lemma SnapLosesInventory(players: map<string, Player>, localId: string, serverPlayers: map<string, Player>)
    requires localId in players && localId in serverPlayers
    requires Diverged(players[localId], serverPlayers[localId])
    requires players[localId].inventory != serverPlayers[localId].inventory
    ensures Reconciled(players, localId, serverPlayers)[localId].inventory != players[localId].inventory
  {
  }

  /** The reconciliation with the snap applied to the local object, as the
      assignments `me.x = serverMe.x; me.y = serverMe.y` intend. */
  function ReconciledKeepingLocal(players: map<string, Player>, localId: string, serverPlayers: map<string, Player>): map<string, Player>
  {
    if localId in players && localId in serverPlayers then
      var sm := serverPlayers[localId];
      var me := players[localId].(stats := MergedStats(players[localId].stats, sm.stats));
      if Diverged(me, sm) then serverPlayers[localId := me.(x := sm.x, y := sm.y)]
      else serverPlayers[localId := me]
    else serverPlayers
  }

  /** With the correction the local inventory, equipment and facing always
      survive, the position becomes the server's exactly on divergence, and
      the result agrees with the code as written whenever there is no snap. */
  lemma KeepingLocalSpec(players: map<string, Player>, localId: string, serverPlayers: map<string, Player>)
    requires localId in players && localId in serverPlayers
    ensures var r, me, sm := ReconciledKeepingLocal(players, localId, serverPlayers), players[localId], serverPlayers[localId];
      r[localId].inventory == me.inventory && r[localId].equipment == me.equipment &&
      r[localId].direction == me.direction &&
      (Diverged(me, sm) ==> r[localId].x == sm.x && r[localId].y == sm.y) &&
      (!Diverged(me, sm) ==>
         (r[localId].x == me.x && r[localId].y == me.y && r == Reconciled(players, localId, serverPlayers)))
  {
  }

  // ---------------------------------------------------------------------
  // One frame of the game loop

  /** Sprinting needs energy above 0 and costs 0.15; walking restores 0.1,
      only below the maximum; neither is clamped.  The flag is `canSprint`. */
  function FrameEnergy(s: Stats, keys: Keys, chatOpen: bool): (bool, Stats)
  {
    if chatOpen then (false, s)
    else if keys.sprint && s.energy > 0.0 then (true, s.(energy := s.energy - 0.15))
    else if !keys.sprint && s.energy < s.maxEnergy then (false, s.(energy := s.energy + 0.1))
    else (false, s)
  }

  /** `currentSpeed`: 3 walking or 6 sprinting, scaled, halved in water. */
  function Speed(canSprint: bool, speedMult: real, inWater: bool): real
  {
    var base := (if canSprint then 6.0 else 3.0) * speedMult;
    if inWater then base * 0.5 else base
  }

  /** The facing after the four key tests: right over left over down over up. */
  function Facing(keys: Keys, dir: Direction): Direction
  {
    if keys.right then Rightward
    else if keys.left then Leftward
    else if keys.down then Front
    else if keys.up then Back
    else dir
  }

  function DeltaX(keys: Keys, speed: real): real
  {
    (if keys.left then -speed else 0.0) + (if keys.right then speed else 0.0)
  }

  function DeltaY(keys: Keys, speed: real): real
  {
    (if keys.up then -speed else 0.0) + (if keys.down then speed else 0.0)
  }

  /** The local player after one frame of movement. */
  function Stepped(w: WorldMap, doors: map<Coord, real>, me: Player, keys: Keys, chatOpen: bool, speedMult: real): Player
  {
    var (canSprint, stats) := FrameEnergy(me.stats, keys, chatOpen);
    var speed := Speed(canSprint, speedMult, InWater(w, me.x, me.y));
    var dx := if chatOpen then 0.0 else DeltaX(keys, speed);
    var dy := if chatOpen then 0.0 else DeltaY(keys, speed);
    if dx == 0.0 && dy == 0.0 then me.(stats := stats)
    else Moved(w, doors, me.(stats := stats), dx, dy, Facing(keys, me.direction))
  }

  /** The turn and the two gated steps, x first. */
  function Moved(w: WorldMap, doors: map<Coord, real>, me: Player, dx: real, dy: real, newDir: Direction): Player
  {
    var x := if dx != 0.0 && Free(w, doors, me.x + dx, me.y, 32.0, 32.0) then me.x + dx else me.x;
    var y := if dy != 0.0 && Free(w, doors, x, me.y + dy, 32.0, 32.0) then me.y + dy else me.y;
    me.(x := x, y := y, direction := newDir)
  }

  /** The x step is taken only onto a free box, then the y step only from
      the new x; blocked on both axes the player stays put but still turns. */
  lemma SteppedGating(w: WorldMap, doors: map<Coord, real>, me: Player, keys: Keys, speedMult: real)
    ensures var (canSprint, stats) := FrameEnergy(me.stats, keys, false);
      var speed := Speed(canSprint, speedMult, InWater(w, me.x, me.y));
      var dx, dy := DeltaX(keys, speed), DeltaY(keys, speed);
      var p := Stepped(w, doors, me, keys, false, speedMult);
      (p.x == me.x + dx <==> dx == 0.0 || Free(w, doors, me.x + dx, me.y, 32.0, 32.0)) &&
      (p.x == me.x || p.x == me.x + dx) &&
      (p.y == me.y + dy <==> dy == 0.0 || Free(w, doors, p.x, me.y + dy, 32.0, 32.0)) &&
      (p.y == me.y || p.y == me.y + dy) &&
      ((dx != 0.0 || dy != 0.0) ==> p.direction == Facing(keys, me.direction)) &&
      (dx == 0.0 && dy == 0.0 ==> p.direction == me.direction && p.x == me.x && p.y == me.y)
  {
  }

  /** With the chat open the player neither moves nor turns nor changes energy. */
  lemma ChatFreezes(w: WorldMap, doors: map<Coord, real>, me: Player, keys: Keys, speedMult: real)
    ensures Stepped(w, doors, me, keys, true, speedMult) == me
  {
  }

  lemma FacingPriority(keys: Keys, dir: Direction)
    ensures keys.right ==> Facing(keys, dir) == Rightward
    ensures !keys.right && keys.left ==> Facing(keys, dir) == Leftward
    ensures !keys.right && !keys.left && keys.down ==> Facing(keys, dir) == Front
    ensures !keys.right && !keys.left && !keys.down && keys.up ==> Facing(keys, dir) == Back
    ensures !keys.right && !keys.left && !keys.down && !keys.up ==> Facing(keys, dir) == dir
  {
  }

  /** Speeds: walking 3, sprinting 6, both scaled and halved in water;
      a sprint needs energy above 0. */
  lemma SpeedSpec(s: Stats, keys: Keys, speedMult: real, inWater: bool)
    ensures var (canSprint, _) := FrameEnergy(s, keys, false);
      (canSprint <==> keys.sprint && s.energy > 0.0) &&
      Speed(canSprint, speedMult, inWater) ==
        (if canSprint then 6.0 else 3.0) * speedMult * (if inWater then 0.5 else 1.0)
  {
  }

  /** Without clamping, energy stays inside (-0.15, maxEnergy + 0.1): it can
      dip below zero by one sprint step and pass the maximum by one regen step. */
  lemma FrameEnergyBounds(s: Stats, keys: Keys, chatOpen: bool)
    requires -0.15 < s.energy < s.maxEnergy + 0.1
    ensures var (_, t) := FrameEnergy(s, keys, chatOpen);
      -0.15 < t.energy < t.maxEnergy + 0.1 && t == s.(energy := t.energy)
  {
  }

  /** The overshoot is reachable: a sprint at energy 0.1 leaves -0.05. */
  lemma SprintGoesNegative(s: Stats)
    requires s.energy == 0.1
    ensures FrameEnergy(s, Keys(false, false, false, false, true), false).1.energy < 0.0
  {
  }

  // ---------------------------------------------------------------------
  // Game start and the late-join replay

  /** `initWorld(x, y)` on map w. */
  function InitialWorld(w: WorldMap, useTestWorld: bool, seed: string, x: real, y: real): WorldMap
  {
    if useTestWorld then TestWorld(w) else Generated(w, FieldsOf(seed), TileOf(x), TileOf(y))
  }

  /** Changes inside the joining player's window are replayed and then
      overwritten by the generator: the replay has no effect at all. */
  lemma ReplayErased(w0: WorldMap, changes: seq<Update>, f: Fields, ptx: int, pty: int)
    requires forall c :: c in Touched(changes) ==> InWindow(c, ptx, pty)
    ensures Generated(AppliedAll(w0, changes), f, ptx, pty) == Generated(w0, f, ptx, pty)
  {
    AppliedAllFrame(w0, changes);
    GeneratedOverwrites(AppliedAll(w0, changes), w0, f, ptx, pty);
  }

  /** A tree another player chopped near the joiner comes back for the joiner. */
  lemma ChoppedTreeReappears(w0: WorldMap, f: Fields, tx: int, ty: int, ptx: int, pty: int)
    requires InWindow((tx, ty), ptx, pty) && Classify(f, tx, ty).obj == Tree
    ensures Generated(AppliedAll(w0, [Update(tx, ty, DestroyObject)]), f, ptx, pty)[(tx, ty)].obj == Tree
    ensures TileAt(StartWorldCorrected(w0, [Update(tx, ty, DestroyObject)], f, ptx, pty), tx, ty).obj == NoObject
  {
    GeneratedSpec(AppliedAll(w0, [Update(tx, ty, DestroyObject)]), f, ptx, pty);
    var g := Generated(w0, f, ptx, pty);
    assert AppliedAll(g, [Update(tx, ty, DestroyObject)]) == AppliedAll(Applied(g, Update(tx, ty, DestroyObject)), []);
  }

  /** The start with the replay after the generator. */
  function StartWorldCorrected(w0: WorldMap, changes: seq<Update>, f: Fields, ptx: int, pty: int): WorldMap
  {
    AppliedAll(Generated(w0, f, ptx, pty), changes)
  }

  /** Replay splits over concatenation. */
  lemma {:induction false} AppliedAllAppend(w: WorldMap, us: seq<Update>, vs: seq<Update>)
    ensures AppliedAll(w, us + vs) == AppliedAll(AppliedAll(w, us), vs)
    decreases |us|
  {
    if us != [] {
      assert (us + vs)[1..] == us[1..] + vs;
      AppliedAllAppend(Applied(w, us[0]), us[1..], vs);
    } else {
      assert us + vs == vs;
    }
  }

  /** With the correction the newest change of every tile takes effect on
      top of the generated world. */
  lemma CorrectedStartKeepsChanges(w0: WorldMap, changes: seq<Update>, u: Update, f: Fields, ptx: int, pty: int)
    ensures TileAt(StartWorldCorrected(w0, changes + [u], f, ptx, pty), u.x, u.y) ==
      Effect(TileAt(StartWorldCorrected(w0, changes, f, ptx, pty), u.x, u.y), u.action)
  {
    AppliedAllAppend(Generated(w0, f, ptx, pty), changes, [u]);
    var w := StartWorldCorrected(w0, changes, f, ptx, pty);
    assert AppliedAll(w, [u]) == AppliedAll(Applied(w, u), []);
  }

  // ---------------------------------------------------------------------
  // The client state

  class GameClient {
    const world: Store
    var players: map<string, Player>
    var localId: string
    var worldTime: int
    var isOffline: bool
    var isTimePaused: bool
    var worldSeed: string
    var useTestWorld: bool
    var speedMult: real
    /** Door angles by tile; the spring simulation that moves them is not modelled. */
    var doorStates: map<Coord, real>

    /** The initial `gameState`; the clock, the speed multiplier, the door
        states and the pause flag are read but never declared there, so
        their starting values here are assumed. */
    constructor (w: Store)
      ensures world == w && players == map[] && localId == "offline-player" && worldTime == 0
      ensures !isOffline && !isTimePaused && worldSeed == "terrawilds" && !useTestWorld
      ensures speedMult == 1.0 && doorStates == map[]
    {
      world := w;
      players, localId, worldTime := map[], "offline-player", 0;
      isOffline, isTimePaused, worldSeed, useTestWorld := false, false, "terrawilds", false;
      speedMult, doorStates := 1.0, map[];
    }

    /** `startGame(initialPlayers, playerId)`: the players, a fresh 36-slot
        inventory for the local player, and the world around them. */
    method StartGame(initialPlayers: map<string, Player>, playerId: string)
      requires playerId in initialPlayers
      modifies this, world
      ensures localId == playerId
      ensures players == initialPlayers[playerId := initialPlayers[playerId].(inventory := EMPTY_INVENTORY)]
      ensures world.tiles == InitialWorld(old(world.tiles), useTestWorld, worldSeed,
                                          initialPlayers[playerId].x, initialPlayers[playerId].y)
      ensures worldTime == old(worldTime) && isOffline == old(isOffline) && worldSeed == old(worldSeed)
      ensures useTestWorld == old(useTestWorld) && isTimePaused == old(isTimePaused)
      ensures speedMult == old(speedMult) && doorStates == old(doorStates)
    {
      players := initialPlayers;
      localId := playerId;
      var me := players[localId].(inventory := EMPTY_INVENTORY);
      players := players[localId := me];
      InitWorld(world, useTestWorld, worldSeed, me.x, me.y);
    }

    /** `onGameStart(players, worldChanges, seed)`: the replay runs before
        `initWorld`, as written. */
    method OnGameStart(ps: map<string, Player>, changes: seq<Update>, seed: Option<string>)
      requires localId in ps
      modifies this, world
      ensures !isOffline && worldSeed == OrDefault(seed, old(worldSeed)) && localId == old(localId)
      ensures players == ps[localId := ps[localId].(inventory := EMPTY_INVENTORY)]
      ensures world.tiles == InitialWorld(AppliedAll(old(world.tiles), changes), useTestWorld, worldSeed,
                                          ps[localId].x, ps[localId].y)
      ensures worldTime == old(worldTime) && useTestWorld == old(useTestWorld)
      ensures isTimePaused == old(isTimePaused) && speedMult == old(speedMult) && doorStates == old(doorStates)
    {
      isOffline := false;
      if seed.Some? && seed.value != "" {
        worldSeed := seed.value;
      }
      world.ApplyAll(changes);
      StartGame(ps, localId);
    }

    /** `startGameOffline()`; `randomSeed` stands for the random number
        drawn when the seed is unset or the default, `color` for the random
        colour. */
    method StartGameOffline(randomSeed: string, color: string)
      modifies this, world
      ensures worldSeed == if old(worldSeed) == "" || old(worldSeed) == "terrawilds" then randomSeed else old(worldSeed)
      ensures localId == "offline_hero"
      ensures players == map["offline_hero" := Player("offline_hero", 0.0, 0.0, color, "Explorer", Front,
                                                      EMPTY_INVENTORY, NO_EQUIPMENT, START_STATS)]
      ensures world.tiles == InitialWorld(old(world.tiles), useTestWorld, worldSeed, 0.0, 0.0)
      ensures worldTime == old(worldTime) && isOffline == old(isOffline) && useTestWorld == old(useTestWorld)
    {
      if worldSeed == "" || worldSeed == "terrawilds" {
        worldSeed := randomSeed;
      }
      var player := Player("offline_hero", 0.0, 0.0, color, "Explorer", Front, [], NO_EQUIPMENT, START_STATS);
      var initial := map["offline_hero" := player];
      assert initial["offline_hero" := player.(inventory := EMPTY_INVENTORY)] ==
        map["offline_hero" := player.(inventory := EMPTY_INVENTORY)];
      StartGame(initial, "offline_hero");
    }

    /** `onState(serverPlayers, serverTime)`. */
    method OnState(serverPlayers: map<string, Player>, serverTime: Option<int>)
      modifies this
      ensures players == Reconciled(old(players), localId, serverPlayers)
      ensures worldTime == if serverTime.Some? then serverTime.value else old(worldTime)
      ensures localId == old(localId) && isOffline == old(isOffline) && worldSeed == old(worldSeed)
      ensures useTestWorld == old(useTestWorld) && isTimePaused == old(isTimePaused)
      ensures speedMult == old(speedMult) && doorStates == old(doorStates)
    {
      var sp := serverPlayers;
      if serverTime.Some? {
        worldTime := serverTime.value;
      }
      if localId in players && localId in sp {
        var me := players[localId];
        var serverMe := sp[localId];
        var st := me.stats.(hp := serverMe.stats.hp, maxHp := serverMe.stats.maxHp,
                            hunger := serverMe.stats.hunger, xp := serverMe.stats.xp,
                            level := serverMe.stats.level);
        if AbsReal(st.energy - serverMe.stats.energy) > 5.0 {
          st := st.(energy := serverMe.stats.energy);
        }
        me := me.(stats := st);
        if Diverged(me, serverMe) {
          // the snapped local object is not stored back
          me := me.(x := serverMe.x, y := serverMe.y);
        } else {
          sp := sp[localId := me];
        }
      }
      players := sp;
    }

    /** One pass of `gameLoop` for the local player: offline clock, energy,
        speed, facing, the two gated steps, and the movement message sent
        when online. */
    method Frame(keys: Keys, chatOpen: bool) returns (emitted: Option<MoveData>)
      modifies this
      ensures worldTime == if old(isOffline) && !old(isTimePaused) then (old(worldTime) + 5) % 24000 else old(worldTime)
      ensures players == if localId in old(players)
                         then old(players)[localId := Stepped(world.tiles, doorStates, old(players)[localId], keys, chatOpen, speedMult)]
                         else old(players)
      ensures emitted.Some? <==> localId in old(players) && !isOffline
      ensures emitted.Some? ==>
        var p := players[localId];
        emitted.value == MoveData(p.x, p.y, p.direction, FrameEnergy(old(players)[localId].stats, keys, chatOpen).0)
      ensures localId == old(localId) && isOffline == old(isOffline) && worldSeed == old(worldSeed)
      ensures useTestWorld == old(useTestWorld) && isTimePaused == old(isTimePaused)
      ensures speedMult == old(speedMult) && doorStates == old(doorStates)
    {
      if isOffline && !isTimePaused {
        worldTime := (worldTime + 5) % 24000;
      }
      if localId !in players {
        return None;
      }
      var me, canSprint := StepLocal(world, doorStates, players[localId], keys, chatOpen, speedMult);
      players := players[localId := me];
      emitted := if !isOffline then Some(MoveData(me.x, me.y, me.direction, canSprint)) else None;
    }

    /** The local player's part of one frame. */
    static method StepLocal(world: Store, doors: map<Coord, real>, me: Player, keys: Keys, chatOpen: bool, speedMult: real)
      returns (me': Player, canSprint: bool)
      ensures me' == Stepped(world.tiles, doors, me, keys, chatOpen, speedMult)
      ensures canSprint == FrameEnergy(me.stats, keys, chatOpen).0
    {
      var dx, dy, newDir;
      canSprint, me', dx, dy, newDir := Steer(world, me, keys, chatOpen, speedMult);
      if dx != 0.0 || dy != 0.0 {
        me' := Walk(world, doors, me', dx, dy, newDir);
      }
    }

    /** The energy update, speed and key tests of one frame. */
    static method Steer(world: Store, me: Player, keys: Keys, chatOpen: bool, speedMult: real)
      returns (canSprint: bool, me': Player, dx: real, dy: real, newDir: Direction)
      ensures (canSprint, me'.stats) == FrameEnergy(me.stats, keys, chatOpen)
      ensures me' == me.(stats := me'.stats)
      ensures var speed := Speed(canSprint, speedMult, InWater(world.tiles, me.x, me.y));
        dx == (if chatOpen then 0.0 else DeltaX(keys, speed)) &&
        dy == (if chatOpen then 0.0 else DeltaY(keys, speed))
      ensures !chatOpen ==> newDir == Facing(keys, me.direction)
    {
      me' := me;
      canSprint := false;
      dx, dy := 0.0, 0.0;
      newDir := me.direction;
      if !chatOpen {
        if keys.sprint && me.stats.energy > 0.0 {
          canSprint := true;
          me' := me.(stats := me.stats.(energy := me.stats.energy - 0.15));
        } else if !keys.sprint && me.stats.energy < me.stats.maxEnergy {
          me' := me.(stats := me.stats.(energy := me.stats.energy + 0.1));
        }
        var currentSpeed := (if canSprint then 6.0 else 3.0) * speedMult;
        var wet := IsPositionInWater(world, me.x, me.y);
        if wet {
          currentSpeed := currentSpeed * 0.5;
        }
        assert currentSpeed == Speed(canSprint, speedMult, InWater(world.tiles, me.x, me.y));
        if keys.up { dy := dy - currentSpeed; newDir := Back; }
        if keys.down { dy := dy + currentSpeed; newDir := Front; }
        if keys.left { dx := dx - currentSpeed; newDir := Leftward; }
        if keys.right { dx := dx + currentSpeed; newDir := Rightward; }
      }
    }

    /** The turn and the two gated steps, x first. */
    static method Walk(world: Store, doors: map<Coord, real>, me: Player, dx: real, dy: real, newDir: Direction)
      returns (me': Player)
      ensures me' == Moved(world.tiles, doors, me, dx, dy, newDir)
    {
      me' := me.(direction := newDir);
      if dx != 0.0 {
        var ok := CanMoveTo(world, doors, me'.x + dx, me'.y, 32.0, 32.0);
        if ok {
          me' := me'.(x := me'.x + dx);
        }
      }
      if dy != 0.0 {
        var ok := CanMoveTo(world, doors, me'.x, me'.y + dy, 32.0, 32.0);
        if ok {
          me' := me'.(y := me'.y + dy);
        }
      }
    }
  }

  /** The offline clock stays on the 24000-step day. */
  lemma OfflineClockRange(t: int)
    requires 0 <= t < 24000
    ensures 0 <= (t + 5) % 24000 < 24000
    ensures t + 5 < 24000 ==> (t + 5) % 24000 == t + 5
  {
  }
}
