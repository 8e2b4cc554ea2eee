# Terra Wilds in Dafny

A verified model of the deterministic core of Terra Wilds, a browser
survival game played in rooms over a socket server. The world is generated
from a seed. Players walk, mine, build, craft and chat, and every change to
the world travels as a small mutation message that peers apply at once.

The project models:

- **`Hash`, `Noise`** (math.ts). The `cyrb128` string hash and the
  `SeededRandom` generator in 32-bit bit-vector arithmetic. The Noise2D
  constructor is a Fisher–Yates shuffle of an identity array, followed by
  doubling to 512 entries; `get` is the lattice lookup with fade and
  interpolation over reals. The server's copy (server/server.js:40-97)
  is the same text, so the same model serves both sides.
- **`Generation`** (generation.ts). The biome classifier over three noise
  fields, the window writer of `generateBiomedWorld` with its 5 by 5 water
  scan, and the test world.
- **`World`** (world.ts). The sparse layered tile store: a map from tile
  to terrain, floor, object and item stack, where an absent key is plain
  grass. It covers mutation messages, layer-aware destroy, item push and
  pop, the neighbour search of a drop, and the placement guards.
- **`Physics`** (physics.ts). The client's four-corner collision test
  against solid objects and thin wall and door strips, and the water test
  with its shore triangles.
- **`Server`** (server/server.js). Rooms, the capped mutation log, the
  server's own collision rule (a backward log scan, then a baseline
  generator), movement validation and the energy rule, room
  create/join/leave, and the world clock.
- **`Client`** (index.tsx). State reconciliation, the per-frame movement
  and energy step, the offline clock and the order of `onGameStart`.
- **`Interaction`** (interaction.ts). Placement rotation, mining
  durations and minability, progress, the destroy message, yields, and the
  left-click paths.
- **`Inventory`, `Recipes`** (inventory.ts, recipes.ts). The 36-slot
  inventory with 64-item stacks: add, remove, count, craft, drag-and-drop
  merge, equip and unequip, and the hotbar. Also the twelve-recipe table.
- **`Legacy`** (game.ts). The older string-tile world: `getTile`,
  `destroyTile`, `canMoveTo` and the window of `generateWorld`.
- **`Chat`** (chat.ts). The HTML escaping of player messages, command
  routing, and the open/closed toggle.
- **`Types`, `Wrappers`**. The shared records (tiles, players, items,
  mutation messages) and `Option`.

What the code mutates in place is modelled as classes:

- `Hash.SeededRandom` and `Noise.Noise2D`, whose 512-entry table is an
  array;
- `World.Store`;
- `Server.RoomServer`;
- `Client.GameClient`;
- `Interaction.Interaction`;
- `Inventory.Bag`;
- `Legacy.LegacyWorld`;
- `Chat.ChatState`.

Each method is proved against a specification function of the old state.
The properties are lemmas over those functions.

Inputs the code draws from the environment become parameters:

- `Math.random()` draws: the shake, drop and colour choices, the random
  room id and the random offline seed;
- `Date.now()` readings;
- the mouse position and the key state;
- a door's swing angle;
- noise values, where the generator is abstracted.

Where the code and the system's design description disagree, the model
follows the code:

- Stone does not block on either side (physics.ts:106,
  server/server.js:155).
- The server and the client use different collision rules.
- A late joiner does not see the replayed log (see Findings).

## Model

| member | source | states |
|---|---|---|
| Hash.CodeUnits | math.ts:8 | `charCodeAt` works on UTF-16 code units: there are at least as many units as characters |
| Hash.CodeUnitsOfBasic | math.ts:7-8 | on a string with no character above U+FFFF the loop sees exactly the characters, one unit each |
| Hash.Cyrb128 | math.ts:4-19 | the hash is a pure function of the string and lies in [0, 2^32) (the final `>>> 0`) |
| Hash.ComputeCyrb128 | math.ts:4-19 | the loop over the code units with the four 32-bit lanes computes exactly `Cyrb128` |
| Hash.Output | math.ts:28-30 | the integer `next()` divides by 2^32 lies in [0, 2^32) |
| Hash.OutputModulo | math.ts:27-30 | only the state modulo 2^32 reaches the output: the 32-bit views forget the rest |
| Hash.UnitRange | math.ts:30 | a drawn value divided by 4294967296 lies in [0, 1) |
| Hash.Draw | math.ts:26-30 | the k-th integer drawn from a seed hash lies in [0, 2^32) |
| Hash.DrawIsOutput | math.ts:27 | after k+1 calls the state has grown by (k+1)·0x6D2B79F5 and the output is the k-th draw |
| Hash.DrawPeriodic | math.ts:27-30 | the stream of draws repeats with period 2^32 |
| Hash.SeededRandom.constructor | math.ts:23-25 | the state starts at `cyrb128(seedStr)` |
| Hash.SeededRandom.Next | math.ts:26-31 | the state grows by 0x6D2B79F5 and the value returned is the next draw over 2^32, in [0, 1) |
| Hash.SameSeedSameStream | math.ts:21-31 | two generators built from the same string return the same values, the j-th being the j-th draw of the string's hash |
| Noise.SwapIndexInRange | math.ts:43-45 | every Fisher-Yates swap index at step i lies in [0, i] |
| Noise.SwapIndexIsFloor | math.ts:44 | `Math.floor(next() * (i + 1))` equals the integer quotient (n·(i+1)) div 2^32 exactly |
| Noise.Identity256 | math.ts:42 | `p[i] = i` for every i below 256 |
| Noise.Swap | math.ts:45 | the destructuring swap exchanges two entries, keeps the rest and keeps the multiset |
| Noise.Shuffled | math.ts:43-46 | after every number of shuffle steps `p` is a permutation of 0..255 |
| Noise.ShuffledStep | math.ts:43-46 | step k swaps index 255 - k with the index taken from draw k, which is at most 255 - k |
| Noise.PermutationFacts | math.ts:41-46 | a permutation of 0..255 holds every value of 0..255 exactly once and nothing else |
| Noise.Doubled | math.ts:47 | the 512 entries repeat the shuffled array, `perm[i] == p[i & 255]`, each in [0, 255] |
| Noise.PermTableShape | math.ts:40-47 | the seed's table has period 256 and its first half holds each of 0..255 once |
| Noise.FadeRange | math.ts:50 | `fade` maps [0, 1] into [0, 1] |
| Noise.LerpRange | math.ts:51 | the private `lerp` of values in [0, 1] with a weight in [0, 1] stays in [0, 1] |
| Noise.NoiseAt | math.ts:53-66 | `get` returns a value in [0, 1] for any reals x, y, negative ones included; every table index stays in 0..511 |
| Noise.NoisePeriodic | math.ts:54-57 | the noise repeats with period 256 on each axis, because only floor(x) & 255 reaches the table |
| Noise.NoiseAtLattice | math.ts:54-65 | at an integer point the weights vanish and the sample is `val(perm[perm[X] + Y])` |
| Noise.Mix | math.ts:69-71 | the exported `lerp` gives `start` at t = 0 and `end` at t = 1 |
| Noise.MixIsLerp | math.ts:69-71 | the exported and the private interpolation are the same function |
| Noise.IdentityArray | math.ts:41-42 | the array holds the identity 0..255 |
| Noise.ShuffleInPlace | math.ts:43-46 | the in-place loop makes 255 draws and leaves `Shuffled(hash, 255)` |
| Noise.DoubleInto | math.ts:47 | the 512-entry array repeats `p`, entry i being `p[i & 255]` |
| Noise.Noise2D.BuildTable | math.ts:40-47 | identity, shuffle and doubling give the table of the generator's seed hash after 255 draws |
| Noise.Noise2D.constructor | math.ts:38-48 | `perm` is the table the seed string determines |
| Noise.Noise2D.Get | math.ts:53-66 | `get` reads only the table: its value is `NoiseAt(table, x, y)` in [0, 1] |
| Noise.SameSeedSameNoise | math.ts:38-66 | two generators built from the same string return the same noise everywhere |
| Generation.FieldsOfInUnit | generation.ts:64-66 | the three noise fields of a seed (`_elevation`, `_moisture`, `_objects`) take values in [0, 1] |
| Generation.WaterNearSquare | generation.ts:86-92 | water on any tile of the 5 x 5 square around (x, y) makes the riverbank test true |
| Generation.SafeZonePlain | generation.ts:72-73 | a tile with x² + y² < 25 is plain grass: no water, floor, object or item |
| Generation.ClassifyLayers | generation.ts:71-81 | every tile has no floor and no items; water exactly when outside the safe zone and elevation < 0.35, and water carries no object; only none, tree, high grass, stone or big rock appear |
| Generation.TreeRule | generation.ts:83-101 | a tree appears exactly outside the safe zone, on land, at even \|x\| and \|y\|, in the wet band with object noise > 0.25 and no water near, or in the medium band with object noise > 0.85; so trees need moisture > 0.3 |
| Generation.RiverbankRule | generation.ts:85-95 | in the wet band a tree candidate becomes high grass exactly when water lies in its 5 x 5 neighbourhood |
| Generation.RockRule | generation.ts:102-107 | stone or big rock appears exactly outside the safe zone, on land, with moisture ≤ 0.3 and cluster noise > 0.82; big rock exactly when the object noise also exceeds 0.2 |
| Generation.GeneratedSpec | generation.ts:68-111 | generation writes exactly the keys of the 100 x 100 window around the player's tile, each with its classified tile, and leaves every other key alone |
| Generation.GeneratedOverwrites | generation.ts:110 | whatever the window held before is lost: two stores that differ only inside the window generate equal worlds |
| Generation.Sample | generation.ts:76-78 | sampling a generator gives the value of the field it stands for |
| Generation.ScanWaterNear | generation.ts:86-92 | the nested 5 x 5 scan with its two breaks finds water exactly when some neighbour has elevation < 0.35 |
| Generation.GenerateTile | generation.ts:70-109 | the loop body computes the classified tile of (x, y) |
| Generation.ChooseWet | generation.ts:83-96 | the wet-band object choice (tree, high grass or none) |
| Generation.ChooseMedium | generation.ts:97-101 | the medium-band object choice (tree, high grass or none) |
| Generation.ChooseDry | generation.ts:102-107 | the dry-band object choice (big rock, stone or none) |
| Generation.WriteWindow | generation.ts:68-112 | the two nested loops leave the generated world |
| Generation.WriteColumn | generation.ts:69-111 | one column of the window is written with classified tiles, nothing else changes |
| Generation.GenerateBiomedWorld | generation.ts:59-113 | the player's tile is floor(coordinate / 40) and the store becomes the generated world for the seed's fields |
| Generation.TestWorldSpec | generation.ts:9-57 | the square [-50, 50)² is rewritten and other keys are untouched; inside it items are empty, terrain is water exactly on the pond, the floor is wood exactly on the patch, and the showcase rows hold the base objects, walls and doors at (5i - 10, -5), (5i - 10, 0) and (5i - 10, 5); every other tile of the square holds no object |
| Generation.TestWorldPlain | generation.ts:11-16 | a tile of the square off the rows, the pond and the patch is plain grass |
| Generation.ClearTestSquare | generation.ts:11-16 | the first loop clears the square to plain grass, other keys untouched |
| Generation.PlaceRow | generation.ts:24-42 | a `forEach` row sets only the object of the tiles (5i - 10, ty) that exist |
| Generation.PaintPatches | generation.ts:44-56 | the two 3 x 3 loops set water terrain on the pond and a wood floor on the patch, nothing else |
| Generation.PaintPond | generation.ts:46-50 | water terrain on x in [-10, -8], y in [10, 12] where the tile exists |
| Generation.PaintFloorPatch | generation.ts:52-56 | wood floor on x in [-5, -3], y in [10, 12] where the tile exists |
| Generation.GenerateTestWorld | generation.ts:9-57 | the store becomes the test world whatever the player position |
| Generation.RowsPlaced | generation.ts:24-42 | the three rows over the cleared square put each showcase object in place |
| Generation.TestWorldPhases | generation.ts:9-57 | clearing, the rows and the two patches compose to the test world |
| Generation.InitWorld | world.ts:123-126 | `initWorld` builds the test world or the biome world, as the flag says |
| World.TileAt | world.ts:10-14 | `getTileData` returns the stored tile, or plain grass for an absent key; it is a function of the store, so it never changes it |
| World.InteractionType | world.ts:16-22 | the object wins over the floor (`floor_wood`), the floor over water, water over grass, each case in both directions |
| World.PeekItem | world.ts:51-58 | `tryPickupItem` finds an item exactly when the tile under the point has a non-empty stack, and then it is the top item, left in place |
| World.AppliedAllFrame | world.ts:38-49 | replaying a log materialises exactly the tiles it names and leaves every other tile as it was |
| World.FreeIndex | world.ts:69-70 | the neighbour search stops at a position between its start and 8 (none found) |
| World.DestroyedFacts | world.ts:24-36 | an absent key is left alone; otherwise the object is cleared if there is one, else the floor, never both; terrain, items and every other tile are unchanged |
| World.AppliedFrame | world.ts:38-49 | an update materialises a default tile and rewrites only that tile, and within it only the layer its action names; terrain never changes and an unknown action changes nothing else |
| World.AppliedIdempotent | world.ts:43-48 | `destroy_object`, `place_floor` and `destroy_floor` applied twice are applied once |
| World.AppliedNoOps | world.ts:44-45 | `pickup_item` on an empty stack and `place_item` without data (or with "") only materialise the tile |
| World.PlaceThenPickup | world.ts:44-45 | `place_item d` followed by `pickup_item` on the same tile restores the stack |
| World.PeekThenPickup | world.ts:51-65 | the item peeked is the one `pickupItemAt` removes, the stack loses exactly its top, and an empty or absent tile gives null and no change (a popped "" counts as null) |
| World.FreeIndexSpec | world.ts:69-70 | the first placeable neighbour in the order N, NE, E, SE, S, SW, W, NW is chosen: every earlier one is not placeable |
| World.DroppedAddsOne | world.ts:67-82 | dropping adds exactly one item on top of exactly one tile's stack, the origin when it is placeable, and nothing else changes |
| World.PlacementsAreUpdates | world.ts:111-121 | the local `placeObject`/`placeFloor` equal the `place_object`/`place_floor` updates peers apply |
| World.PlaceableSpec | world.ts:90-109 | water forbids everything; a floor is allowed iff there is none; an object is allowed iff the object is none or high grass and no player is within 25 units of the tile centre |
| World.Store.constructor | world.ts:8 | the world starts empty |
| World.Store.DestroyTileObject | world.ts:24-36 | the store becomes `Destroyed` of the old store |
| World.Store.ApplyWorldUpdate | world.ts:38-49 | the store becomes the old store with the update applied |
| World.Store.ApplyAll | index.tsx:63 | `worldChanges.forEach(applyWorldUpdate)` applies the log in order |
| World.Store.PickupItemAt | world.ts:60-65 | returns and removes the top item, null on an absent or empty tile |
| World.Store.TryPlaceItemAt | world.ts:74-82 | pushes the item exactly when the tile is placeable and reports that |
| World.Store.ForcePlaceItem | world.ts:84-88 | pushes the item whatever the tile holds |
| World.Store.DropItemOnGround | world.ts:67-72 | the origin, else the neighbours in order, else the origin regardless |
| World.Store.CanPlaceObject | world.ts:90-109 | the loop over players with its early exit computes the placement guard |
| World.Store.PlaceObject | world.ts:111-115 | only the object of that tile changes |
| World.Store.PlaceFloor | world.ts:117-121 | only the floor of that tile changes, to wood |
| Physics.JsRem40Range | physics.ts:15-16 | JavaScript's `x % 40` lies in (-40, 40) and is non-negative for non-negative x |
| Physics.FloorUnique | physics.ts:7-8 | the tile index floor(a / 40) is the only k with 0 ≤ a - 40k < 40 |
| Physics.LocalIsOffset | physics.ts:15-16 | `((x % 40) + 40) % 40` is the offset from the tile's edge and lies in [0, 40), also for negative x |
| Physics.InWaterSpec | physics.ts:9-21 | a point is in water only on a water tile, and every point of a water tile whose four neighbours are water is in water |
| Physics.ShoreCut | physics.ts:17 | on a water tile with land above and to the left only, a point is dry exactly in the triangle lx + ly < 40 |
| Physics.Corners | physics.ts:91-99 | the test looks at four corners, x ± (w - 12)/2 and y - (h - 12)/2 + 10 or y + (h - 12)/2 |
| Physics.BlocksSpec | physics.ts:104-139 | a corner on a tree, big rock or workbench blocks; nothing, stone and high grass never block; a wall blocks exactly on its 10-unit strip, bounds inclusive; a door blocks like a wall unless its angle exceeds 0.25 in size, and then never |
| Physics.OnlyObjectsMatter | physics.ts:101-141 | terrain and floor never block: stores that agree on the objects under the four corners give the same answer |
| Physics.StripInclusive | physics.ts:118 | the strip's inner edge is inside: 10 units below a top wall's edge blocks, 10.5 does not |
| Physics.CanMoveTo | physics.ts:90-142 | the corner loop with early return is true exactly when no corner blocks; it only reads the store |
| Physics.IsPositionInWater | physics.ts:6-22 | the four land tests and the triangle cuts compute `InWater`; it only reads the store |
| Server.AppendedSpec | server/server.js:252-253 | after push and the conditional shift the log holds at most 5000 entries, the new one last; below the cap it is an append, at the cap the oldest entry goes |
| Server.EditIndex | server/server.js:120-126 | the backward scan's result index is -1 or a position in the log |
| Server.EditIndexSpec | server/server.js:120-126 | the scan stops at the newest destroy_object or place_object entry for the tile; no later entry edits that tile |
| Server.EditIndexAppend | server/server.js:120-126 | appending an entry that does not edit the tile leaves the result unchanged; appending an edit of the tile makes it the result |
| Server.ScanLog | server/server.js:120-126 | the loop from the end with its breaks computes `EditIndex` |
| Server.BaselineSpec | server/server.js:129-152 | the baseline is none, tree, stone or big_rock; tree exactly outside the safe zone with elevation ≥ 0.35, moisture > 0.3, even coordinates and rnd > 0.25; a rock exactly with moisture ≤ 0.3 and cluster noise > 0.82, and a rock is big_rock exactly when rnd > 0.2, stone otherwise |
| Server.ServerObjectSpec | server/server.js:117-129 | with no edit of the tile the baseline is used; a placed object wins; after destroy_object the baseline is used again; entries for other tiles or other actions change nothing |
| Server.PassableOnServer | server/server.js:155-178 | stone, high grass and no object never collide on the server |
| Server.DoorsAlwaysClosed | server/server.js:158-175 | a door collides exactly in its 10-unit strip, whatever its angle |
| Server.BaselineCoversClassify | server/server.js:138-149 | every tree the client generates is a tree in the server's baseline, and the two agree exactly on stone and big_rock |
| Server.BaselineTreeBesideWater | server/server.js:138-143 | the converse fails: a tile beside water is high grass on the client and a tree in the server's baseline |
| Server.UndefinedObjectThrows | server/server.js:124 | a place_object entry without data makes the lookup of that tile throw (`startsWith` on undefined, line 158) |
| Server.DataEditIndex | server/server.js:120-126 | the corrected scan's result is -1 or a position in the log |
| Server.SkippingEmptyAgrees | server/server.js:120-126 | wherever the scan as written does not land on a dataless place_object, the corrected scan finds the same entry |
| Server.SkippingEmptyMatches | server/server.js:117-152 | wherever the lookup as written does not throw, the corrected lookup gives the same object |
| Server.ChoppedTreeStillSolid | server/server.js:123-142 | after a baseline tree is destroyed, the server still finds a tree there |
| Server.AfterDestroySpec | server/server.js:117-152 | under the corrected rule a destroyed tile is empty, an unedited tile is the baseline, and a placed object wins |
| Server.EnergyAfterMoveSpec | server/server.js:240-244 | energy starting in [0, maxEnergy] stays there; a sprint with energy lowers it, otherwise it does not fall; no other statistic changes |
| Server.TickedSpec | server/server.js:321 | the clock stays in [0, 24000): +5 below 23995, wrapping past 24000 otherwise |
| Server.NewPlayerSpec | server/server.js:294-310 | a joining player stands at (0, 0) with 36 empty slots and energy within its maximum |
| Server.FirstExisting | server/server.js:227 | the room found is one the socket joined and one that exists |
| Server.HolderIndex | server/server.js:273-274 | the room found lies in the scanned part of the enumeration order |
| Server.HolderIndexSpec | server/server.js:273-281 | the loop stops at the first room, in enumeration order, that holds the socket's player |
| Server.Without | server/server.js:277 | deleting a room removes exactly that id from the enumeration order |
| Server.WithoutPlayerValid | server/server.js:275-279 | removing a player keeps the rooms invariant, and a room left empty goes with its noise-cache entry |
| Server.CacheAfterKeepsSeed | server/server.js:100-108 | a lookup never changes the seed the room's later lookups build their generators from |
| Server.RoomServer.constructor | server/server.js:38 | the server starts with no rooms and an empty noise cache |
| Server.RoomServer.GetNoiseGenerators | server/server.js:100-108 | the generators are built on the first request for a room and reused afterwards; nothing else changes |
| Server.RoomServer.ComputeBaseline | server/server.js:130-151 | the nested threshold tests compute `Baseline` |
| Server.RoomServer.ObjectCollision | server/server.js:117-178 | the body of `isColliding` computes `Collides` (None where it throws), and reads the generators exactly when the log has no object for the tile |
| Server.RoomServer.IsColliding | server/server.js:111-179 | the lookup answers `Collided` (a missing room never collides) and fills the noise cache only when the baseline is consulted |
| Server.RoomServer.CanMoveTo | server/server.js:181-193 | the loop over (x ± 10, y) and (x, y ± 10) stops at the first probe that collides |
| Server.RoomServer.Commit | server/server.js:236-244 | an accepted move takes position and direction from the message and keeps energy within its maximum |
| Server.RoomServer.Movement | server/server.js:226-247 | a socket without a room or player, or a jump of more than 150, changes nothing; a blocked move changes only the noise cache; an accepted move changes only that player |
| Server.RoomServer.WorldUpdate | server/server.js:249-256 | the entry is appended to the current room's capped log, unvalidated; nothing else changes |
| Server.RoomServer.JoinRoom | server/server.js:287-313 | the player is added fresh (replacing an earlier entry for the socket), the socket joins the room, and the reply carries the room's players, log and seed |
| Server.RoomServer.JoinRoomRequest | server/server.js:221-224 | an unknown room earns an error and changes nothing; otherwise exactly that room gains the new player record, the socket joins the room once, the order and the noise cache are unchanged, and the reply carries the room's players, log and seed |
| Server.RoomServer.CreateRoom | server/server.js:207-217 | the new room has the given or default name ("Room " and the first four id characters), the given seed or 'terrawilds', an empty log, clock 6000 and the creator as its only player; it is filed under its id, last when new; the socket joins the room once, after the rooms it already joined, and the reply carries the room's players and seed with an empty log |
| Server.RoomServer.FileRoom | server/server.js:209-216 | the room is filed under its id; a new id goes last in the enumeration order |
| Server.RoomServer.RemovePlayer | server/server.js:275-279 | the player leaves; a room left empty is deleted with its noise cache |
| Server.RoomServer.Disconnect | server/server.js:271-284 | only the first room holding the player loses it, and is deleted with its noise cache once empty; the socket leaves all rooms |
| Server.RoomServer.Tick | server/server.js:317-322 | every room's clock advances by 5 modulo 24000 and nothing else changes |
| Client.MergedStatsSpec | index.tsx:78-85 | hp, maxHp, hunger, xp and level are the server's; energy is the server's once they differ by more than 5 and otherwise stays local; no other statistic changes |
| Client.ReconciledSpec | index.tsx:76-95 | the new players map is the server's, except that the local record replaces the server's copy (with the merged statistics) when within 150, and the server's copy is kept on a snap |
| Client.SnapLosesInventory | index.tsx:87-93 | on a snap the local record is dropped, so a local inventory that differs from the server's is lost |
| Client.KeepingLocalSpec | index.tsx:86-93 | the corrected rule keeps the local inventory, equipment and facing on a snap and takes only the server's position; without a snap it agrees with the code as written |
| Client.SteppedGating | index.tsx:216-219 | the x step is taken exactly when the box at x + dx is free, then the y step exactly when the box at the new x and y + dy is free; blocked on both the player stays put but turns; with no step it neither moves nor turns |
| Client.ChatFreezes | index.tsx:203-215 | with the chat open nothing about the local player changes in a frame |
| Client.FacingPriority | index.tsx:211-214 | right beats left, left beats down, down beats up; with no key the facing is kept |
| Client.SpeedSpec | index.tsx:206-210 | a sprint needs the key and energy above 0; the speed is 6 sprinting or 3 walking, times the speed factor, halved in water |
| Client.FrameEnergyBounds | index.tsx:206-207 | the unclamped update keeps energy within (-0.15, maxEnergy + 0.1) and changes no other statistic |
| Client.SprintGoesNegative | index.tsx:206 | a sprint at energy 0.1 leaves energy below zero |
| Client.ReplayErased | index.tsx:60-64 | changes inside the joining player's window are replayed before `initWorld` rewrites that window, so replaying them has no effect |
| Client.ChoppedTreeReappears | index.tsx:63-64 | a tree another player chopped near the joiner is a tree again after the start as written, and stays chopped after the corrected start |
| Client.AppliedAllAppend | index.tsx:63 | replaying two lists in turn is replaying their concatenation |
| Client.CorrectedStartKeepsChanges | index.tsx:63-64 | with the replay after the generator, the newest change of each tile takes effect on the generated world |
| Client.OfflineClockRange | index.tsx:194-196 | the offline clock stays in [0, 24000) and advances by 5 below the wrap |
| Client.GameClient.constructor | state.ts:5-13 | the client starts without players, as 'offline-player', online, on the world it is given and not the test world, with seed 'terrawilds'; the clock at 0, speed 1, no door states and time running are assumed (see Left out) |
| Client.GameClient.StartGame | index.tsx:138-144 | the players are installed, the local player's inventory is reset to 36 empty slots, and the world around the player is generated; nothing else changes |
| Client.GameClient.OnGameStart | index.tsx:60-64 | the client goes online, takes the seed when one is sent, replays the changes on the old world, then starts the game, whose generator runs over the replayed world |
| Client.GameClient.StartGameOffline | index.tsx:157-167 | an empty or default seed is replaced by the random one; the single player 'offline_hero' stands at (0, 0) with full statistics and an empty inventory |
| Client.GameClient.OnState | index.tsx:67-96 | the players become `Reconciled`; the clock is overwritten only when the server sends a number; nothing else changes |
| Client.GameClient.Frame | index.tsx:189-221 | the offline, unpaused clock advances by 5 modulo 24000; of the client's state only the clock and the local player change, the player to `Stepped`; online the frame emits its position, facing and sprint flag; lines 200-201 are `Interaction.Interaction.RotateKey` and `Interaction.Interaction.HandleInteraction`, and line 202 is left out |
| Client.GameClient.StepLocal | index.tsx:203-219 | the local player's part of a frame computes `Stepped`, and reports whether it sprinted |
| Client.GameClient.Steer | index.tsx:203-215 | the energy update, the speed and the key tests of a frame, with no movement while the chat is open |
| Client.GameClient.Walk | index.tsx:216-219 | the turn and the two gated steps, x first, compute `Moved` |
| Interaction.RotationCycle | interaction.ts:88-92 | rotation stays in [0, 4) and four presses come back to the start; each press turns the placed side clockwise, top to right to bottom to left |
| Interaction.BuildKindSpec | interaction.ts:85-93 | a workbench item places a workbench; a wall or door item places the wall or door of the rotation's side; no other item and no rotation outside [0, 4) places anything |
| Interaction.DurationSpec | interaction.ts:122-125 | every mining time is positive and at most 2000, which only a big rock takes; the item in hand changes the time only for a tree, which takes 1500 exactly with a stone axe (300 with a sharp rock); a wood floor takes 500 |
| Interaction.MinableSpec | interaction.ts:136-146 | high grass, walls, doors, floors and workbenches are always minable; a tree needs a stone axe or a sharp rock; stone and big rock need a tier-1 tool; water, grass and empty tiles never |
| Interaction.ProgressSpec | interaction.ts:149-150 | progress never exceeds 1, is not negative for non-negative elapsed time, and is 1 exactly when the duration has elapsed |
| Interaction.YieldSpec | interaction.ts:182-199 | stone gives one rock and big rock five; a tree gives three wood with an axe and is destroyed, one bark with a sharp rock and is kept; walls, floors and workbenches drop plywood and doors drop a door item; high grass drops a stick or a pebble half the time |
| Interaction.YieldShape | interaction.ts:182-199 | every gain is a positive stack of a named item, and a minable target is destroyed unless a sharp rock strips bark from a tree |
| Interaction.DestroyBroadcastAgrees | interaction.ts:164-170 | the action `syncDestroy` broadcasts has on a peer's map the effect of the local `destroyTileObject` |
| Interaction.AppliedTwo | interaction.ts:158-170 | applying two messages is applying them in turn |
| Interaction.HarvestReplicates | interaction.ts:158-199 | with the drop announced at the tile where it lands, a peer holding the same map reaches the miner's map |
| Interaction.HarvestDropDiverges | interaction.ts:158-161 | as written the drop is announced at the mined tile even when it landed on a neighbour, so a peer's map can differ from the miner's |
| Interaction.ClickBuildSpec | interaction.ts:41-103 | a floor is built only from plywood on a dry, empty-floored tile; an object only from the item and rotation that name it on a placeable tile without a tree; either only when no non-empty item is on top; the workbench opens exactly within distance 2 after 250 ms; a non-empty top item on a non-workbench tile is picked up first, a pickup needs one, and a tree without one is shaken |
| Interaction.ClickEffectSpec | interaction.ts:55-103 | a click changes at most the clicked tile; only pickups and builds change the map; the broadcast updates reproduce the change on a peer's map; a shake broadcasts nothing |
| Interaction.ClickSyncs | interaction.ts:55-64 | for every click the handler takes, a peer applying the broadcast updates reaches the same map; a pickup removes the non-empty top item, broadcasts exactly one `pickup_item` and adds that item to the inventory |
| Interaction.FiresSpec | interaction.ts:113-155 | mining completes exactly when the right button is held within 4 tiles on a minable target that was already the target and the whole duration has elapsed |
| Interaction.Interaction.constructor | interaction.ts:13-22 | rotation 0, no target, progress 0 and duration 300 |
| Interaction.Interaction.RotateKey | index.tsx:200 | the rotation advances modulo 4 at most once every 200 ms; nothing else changes |
| Interaction.Interaction.HandleInteraction | interaction.ts:24-200 | with the inventory or chat open only the progress is reset, and the map, slots, mining state and inventory flags stay; a left click acts by `ClickOf` and `ClickEffect`, stamps the interaction time when it acts, toggles the inventory and workbench only at a workbench, and keeps the mining state; otherwise the right-button path sets the mining target, duration, start, progress and target tile as `Mine` does and fires `Harvest` on completion; the rotation, its timer, the selection, the equipment and the drag source never change |
| Interaction.Interaction.Mine | interaction.ts:108-156 | releasing the button forgets the target; out of range only the progress resets; in range a new target restarts the clock and the duration, and the result is `Fires` |
| Interaction.Interaction.LeftClick | interaction.ts:41-106 | the left-button path classifies the click by `ClickOf`, applies `ClickEffect` to map and slots, and toggles the inventory only at a workbench |
| Interaction.Interaction.OpenWorkbench | interaction.ts:48-49 | the workbench flag follows the toggled inventory; the slots do not change |
| Interaction.Interaction.ShakeTree | interaction.ts:65-71 | a stick is added with probability 0.4; nothing else changes |
| Interaction.Interaction.Pickup | interaction.ts:55-63 | the top item moves from the tile into the slots and is announced online |
| Interaction.Interaction.Build | interaction.ts:75-101 | on a placeable tile the floor or the named object is placed, one item is spent through `addItem(type, -1)` and the placement is announced online; otherwise nothing changes |
| Interaction.Interaction.Harvest | interaction.ts:158-199 | the map becomes `Harvested`, the slots gain the yield, and online the messages as written are sent |
| Inventory.Normalized | inventory.ts:41-46 | the repaired list always has 36 slots: a 36-slot list is kept, any other becomes 36 empty slots |
| Inventory.FillStacksShape | inventory.ts:62-69 | the first loop with a positive amount keeps every stack within 64, changes only stacks of the item, and leaves empty slots empty |
| Inventory.FillStacksSpec | inventory.ts:62-69 | the amount the first loop places is the room it used on stacks of the item, and when something is left no such stack has room |
| Inventory.FillEmptySpec | inventory.ts:70-73 | the second loop places at most 64 per empty slot, changes only empty slots, and places all the empty room when something is left over |
| Inventory.AddedSpec | inventory.ts:58-75 | with c > 0 the count of the item rises by min(c, free capacity), the excess is discarded, no slot passes 64, and other items are untouched |
| Inventory.AddedNonPositive | inventory.ts:62-73 | with c ≤ 0 the first loop stops after slot 0 and the second does not run, so only slot 0 can change |
| Inventory.FreeConsumption | inventory.ts:68 | spending a plywood with `addItem('plywood', -1)` while the plywood sits in slot 1 changes nothing |
| Inventory.TakeFromShape | inventory.ts:80-87 | the loop of `removeItem` only lowers or empties stacks of the item, never below zero |
| Inventory.TakeFromSpec | inventory.ts:80-87 | the loop takes as much as it was asked, or all there is |
| Inventory.RemovedSpec | inventory.ts:77-89 | with c ≥ 0 the count falls by min(c, count), emptied stacks become null, other items are untouched, and the stack limits hold |
| Inventory.ConsumedSpec | interaction.ts:80 | the corrected spending of one held item lowers its count by exactly one |
| Inventory.DroppedSpec | inventory.ts:169-181 | drag and drop (merge up to 64 with the rest left in the source, otherwise a swap) keeps the count of every item and the stack limits |
| Inventory.Wear | inventory.ts:143 | wearing sets exactly one body part |
| Inventory.WornCountWear | inventory.ts:143 | wearing changes the worn count of an item by what left and what arrived at that part |
| Inventory.FirstEmpty | inventory.ts:122 | `findIndex(s => s === null)`: the first empty slot, with every slot before it filled |
| Inventory.EquippedKeepsSingle | inventory.ts:131-146 | equipping from a one-item slot keeps every item owned, in the slots or worn |
| Inventory.EquipStackLoses | inventory.ts:139-143 | equipping from a stack of two helmets loses one of them |
| Inventory.EquippedOneKeeps | inventory.ts:131-146 | with the corrected equip, which takes one item from the stack, every item is kept whatever the stack size |
| Inventory.RemovedAllSpec | inventory.ts:112 | with distinct, positive and affordable costs, every cost is removed in full and no other item changes |
| Inventory.CraftedSpec | inventory.ts:109-114 | a successful craft removes every cost exactly, adds as much of the output as fits, and leaves every other item alone |
| Inventory.CraftRefused | inventory.ts:110-111 | without the required workbench, or short of any cost, crafting changes nothing beyond the length repair |
| Inventory.TableCrafts | inventory.ts:109-114 | every recipe in the table, when affordable at its station, removes its costs exactly |
| Inventory.UnequippedSpec | inventory.ts:116-129 | unequipping keeps every item; without a free slot nothing changes; otherwise the part is cleared and the piece goes, one, into the first empty slot |
| Inventory.CycleStaysOnHotbar | inventory.ts:104-107 | Q and E move the selection by one and wrap within the nine hotbar slots |
| Inventory.Bag.constructor | inventory.ts:9-13 | selection 0, no workbench, inventory closed, not dragging |
| Inventory.Bag.GetInventory | inventory.ts:41-46 | the slots are repaired to 36 and returned; nothing else changes |
| Inventory.Bag.ResetInventory | inventory.ts:48-52 | the slots become 36 empty slots; nothing else changes |
| Inventory.Bag.SelectedItem | inventory.ts:54 | the selected slot after the repair, or null off the list |
| Inventory.Bag.CountItem | inventory.ts:91-93 | the sum of the counts of the item's stacks |
| Inventory.Bag.AddItem | inventory.ts:58-75 | both loops compute `Added` on the repaired slots; nothing else changes |
| Inventory.Bag.RemoveItem | inventory.ts:77-89 | the loop computes `Removed` on the repaired slots; nothing else changes |
| Inventory.Bag.TakeFromEnd | inventory.ts:80-87 | the loop from slot 35 down with its break computes `Removed` |
| Inventory.Bag.HandleHotbarKey | inventory.ts:102 | the selection becomes the key's index; nothing else changes |
| Inventory.Bag.CycleHotbar | inventory.ts:104-107 | the selection moves by the direction modulo 9; nothing else changes |
| Inventory.Bag.SetWorkbenchActive | inventory.ts:17 | only the workbench flag changes |
| Inventory.Bag.ToggleInventory | inventory.ts:95-100 | the inventory opens or closes, closing leaves the workbench and ends a drag |
| Inventory.Bag.TryCraft | inventory.ts:109-114 | the slots become `Crafted`; nothing else changes |
| Inventory.Bag.CheckCosts | inventory.ts:111 | the first loop answers whether every cost is affordable |
| Inventory.Bag.PayCosts | inventory.ts:112 | the second loop removes every cost in turn |
| Inventory.Bag.UnequipArmor | inventory.ts:116-129 | slots and equipment become `Unequipped` |
| Inventory.Bag.EquipArmor | inventory.ts:131-146 | an item that names no body part changes nothing; otherwise the slot is overwritten with the piece worn before, or null, and the item is worn |
| Inventory.Bag.OnSlotMouseDown | inventory.ts:148-158 | an empty slot does nothing; shift-click equips; a plain click starts dragging that slot |
| Inventory.Bag.MouseUp | inventory.ts:164-184 | without a drag nothing happens; otherwise the drag ends and, over a slot, the slots become `Dropped` |
| Recipes.TableShape | recipes.ts:9-22 | twelve recipes, and exactly the three armour pieces need the workbench |
| Recipes.TablePositive | recipes.ts:10-21 | every output count and cost count is positive |
| Recipes.TableDistinct | recipes.ts:10-21 | no recipe names the same cost twice, so checking each cost separately is exact affordability |
| Recipes.TableOutputNotConsumed | recipes.ts:10-21 | no recipe's output is among its costs |
| Recipes.TableWellFormed | recipes.ts:10-21 | every recipe is well formed: positive counts, distinct costs, output not consumed |
| Recipes.TableHasIcons | recipes.ts:10-21 | every item a recipe names has an icon |
| Legacy.GetTile | game.ts:246-248 | the lookup floors both arguments and reads grass for an absent key |
| Legacy.GetTileFloors | game.ts:246-248 | every point of a unit square reads the same key |
| Legacy.Cleared | game.ts:250-252 | `destroyTile` writes grass under the key built from the raw arguments and changes no other key |
| Legacy.DestroyThenGet | game.ts:246-252 | on whole coordinates a destroyed tile reads as grass |
| Legacy.DestroyFractionalMisses | game.ts:246-252 | with a fractional coordinate the write misses: the stone at (1, 2) survives `destroyTile(1.5, 2)` |
| Legacy.DestroyFlooredThenGet | game.ts:246-252 | the corrected clearing, with floored arguments, makes the tile read as grass and leaves every other tile as it was |
| Legacy.GeneratedClearing | game.ts:222-226 | every tile within distance 4 of the player's tile, relative and not absolute, is grass |
| Legacy.GeneratedOutside | game.ts:228-241 | every other tile of the window is the classifier's choice |
| Legacy.FloorClose | game.ts:268-269 | points less than one tile apart lie on the same or adjacent tiles |
| Legacy.SpawnIsFree | game.ts:213-277 | a player the world was just generated around can move where they stand |
| Legacy.WrittenStep | game.ts:220-221 | one more step of the inner loop writes exactly one more key |
| Legacy.WrittenColumn | game.ts:219-220 | the end of one column is the start of the next |
| Legacy.LegacyWorld.constructor | game.ts:214 | the world starts empty |
| Legacy.LegacyWorld.DestroyTile | game.ts:250-252 | the map becomes `Cleared` |
| Legacy.LegacyWorld.CanMoveTo | game.ts:254-277 | the loop over the four corners (padding 15, the top two lowered by 10) returns false exactly when a corner lies on a tree, a stone or water |
| Legacy.LegacyWorld.GenerateWorld | game.ts:213-244 | the world is reset and then holds exactly the keys of the 120 by 120 window around the player's tile, grass in the clearing |
| Legacy.LegacyWorld.WriteColumn | game.ts:220-242 | the inner loop adds exactly the keys of column x, each with its tile |
| Types.EmptySlots | inventory.ts:44 | `new Array(n).fill(null)`: n slots, all empty |
| Types.OrDefault | server/server.js:211-212 | `s \|\| d`: the value unless it is missing or the empty string, else the default |
| Chat.NoBracketsCount | chat.ts:17-18 | a string holds neither `<` nor `>` exactly when its bracket count is zero |
| Chat.EscapeIsEach | chat.ts:17-18 | the two `replace` passes equal the one-pass escaping of each character: the `&lt;` the first pass writes holds no `>` for the second |
| Chat.EscapeEachLength | chat.ts:17-18 | escaping lengthens a string by three characters per bracket |
| Chat.EscapeNoBrackets | chat.ts:17-18 | no raw angle bracket survives the escaping of a nickname or a text |
| Chat.EscapeIdentity | chat.ts:17-18 | the escaping leaves a string alone exactly when it holds no bracket |
| Chat.EscapeAppend | chat.ts:17-18 | escaping commutes with concatenation |
| Chat.EscapeDisplays | chat.ts:17-19 | a message without an ampersand reads back as typed once the browser decodes the entities |
| Chat.AmpersandDisplaysWrong | chat.ts:17-18 | the ampersand is not escaped, so the typed text `&lt;` is shown as `<` |
| Chat.EscapeFullIsEach | chat.ts:17-18 | the corrected escaping (ampersand first, then the brackets) equals the one-pass escaping of each character |
| Chat.EscapeFullDisplays | chat.ts:17-19 | with the correction every message reads back exactly as typed |
| Chat.EscapeFullNoBrackets | chat.ts:17-18 | the corrected escaping still leaves no raw bracket |
| Chat.SystemUnescaped | chat.ts:15 | a system message carries its text verbatim inside `<span>…</span>`, brackets and all |
| Chat.PlayerEscaped | chat.ts:16-20 | in a player message the only brackets are those of the fixed markup and the colour; the nickname and text add none |
| Chat.SeedIsLocal | chat.ts:27-28 | a `/seed…` text shows exactly one system message, 'Current Seed: ' followed by the seed verbatim, sends nothing and leaves the debug panel alone |
| Chat.DebugOnlyToggles | chat.ts:29-31 | a `/debug…` text only flips the debug panel |
| Chat.OfflineNeverSends | chat.ts:33-35 | offline, nothing is ever sent |
| Chat.OnlineSendsOnce | chat.ts:32-36 | online, the text is sent exactly when it is not a command, once and unchanged, and then nothing is shown locally and the panel stays |
| Chat.OfflineEchoes | chat.ts:33-35 | offline, a plain text is shown as the player's own message and then the offline notice |
| Chat.EchoEscaped | chat.ts:34 | the offline echo escapes everything the player typed |
| Chat.ToggledSpec | chat.ts:45-46 | a forced state is taken as given, no argument negates, and toggling twice restores |
| Chat.ChatState.constructor | chat.ts:6 | the chat starts closed, with no messages and nothing sent |
| Chat.ChatState.SetChatOpen | chat.ts:8 | only the open flag changes, to the value given |
| Chat.ChatState.AddChatMessage | chat.ts:10-24 | exactly one element, `MessageHtml`, is appended; nothing else changes |
| Chat.ChatState.HandleChatSend | chat.ts:26-38 | the messages grow by `Shown`, the outbox by `Sent`, the panel becomes `DebugAfter`, and the open flag stays |
| Chat.ChatState.ToggleChat | chat.ts:40-58 | the open flag becomes `Toggled`; nothing else changes |

## Left out

- Rendering, assets, the HUD, floating texts and all other DOM work are left out. So are renderer.ts, ui.ts, debug.ts, inventoryUI.ts and the asset files. The DOM elements the code looks up are assumed present: `if (!chatMessages) return`, `if (!els) return` and the debug panel lookup.
- The debug panel is modelled as one boolean, `Chat.ChatState.debugShown`.
- The chat fade-out timer is left out, because it is a `setTimeout` on the DOM element.
- Networking is left out: network.ts, socket.io and express.
  - Outgoing messages are modelled as values: the client's reply, its movement record, the broadcast updates, the chat outbox.
  - The server's fan-out is not modelled: `socket.to(...).emit`, the `state` broadcast, `onlineCount` and `roomList`.
  - `getRoomList` is left out; it only reports.
  - The server's `chatMessage` relay is left out, because it forwards the text unchanged.
- The `setInterval` and `requestAnimationFrame` loops are modelled one step at a time: `Server.RoomServer.Tick` and `Client.GameClient.Frame`.
- The sources of randomness and time are parameters:
  - `Math.random()`;
  - `crypto.randomBytes`, the room id;
  - `Date.now()` and `performance.now()`;
  - `PRESET_COLORS` and `PLAYER_COLORS` draws, given as the colour.
- The test world's respawn timer (interaction.ts:173-179) is left out, because it is a delayed effect.
- Door swing physics, `updateDoorPhysics`, is left out. It is a floating-point spring simulation, so a door's angle is an input to the collision test.
- Floating-point rounding is left out. Positions, noise, fade, lerp and energy are reals. The distance thresholds 150, 25, 2 and 4 are compared squared, which is equal for reals.
- The PRNG state beyond 2^53 is left out. `SeededRandom` keeps its state as an unbounded integer, while JavaScript loses low bits of `this.state` past 2^53. The model uses only the state modulo 2^32, which is exact while the number stays an exact integer.
- The noise of game.ts `generateWorld` (`Math.sin`, `Math.cos` and `Math.random`) is abstracted as the classifier parameter of `Legacy.LegacyWorld.GenerateWorld`. Only the window and the clearing are modelled.
- JavaScript's object key enumeration order is modelled as insertion order (`Server.RoomServer.order`). JavaScript lists integer-like keys first; an 8-hex-digit room id made of decimal digits only would be listed before the others, and this is not captured.
- Place-object data other than the object kinds is left out. The object layer draws on a closed set of kinds: none, tree, stone, big rock, high grass, workbench, and walls and doors with a side. A `place_object` whose data is some other string cannot be expressed; a missing data field can.
- Icons on inventory items (`ICONS[type]`) are left out, because they only feed rendering. The icon table enters only as the key set `Recipes.ICON_KEYS`.
- `syncInventoryWithServer` is left out, because its body is empty (inventory.ts:56).
- Paths without a local player are left out. `getInventory` returning `[]`, and `equipArmor`/`unequipArmor` returning early, do not arise: a `Bag` always belongs to the local player.
- The mouse-button test of `onSlotMouseDown` is left out. The method models the left button.
- The client's `resetCamera`, `showGameScreen` and the start-screen key handling are left out, because they are UI.
- Interaction.ClickEffectSpec: for a pickup branch on a tile whose top item is missing or the empty string, the contract does not tie the map to the messages. The handler never takes that branch (interaction.ts:55 tests `tryPickupItem` for truthiness), and `Interaction.ClickSyncs` states the synchronisation for every click the handler does take.
- The chat messages of the game start are left out: the welcome with the seed (index.tsx:65), the test-world notice (index.tsx:171) and, outside the test world, the greeting (index.tsx:173). So is the debug panel forced visible for the test world (index.tsx:168-170). `Client.GameClient` holds no `Chat.ChatState`, so `OnGameStart` and `StartGameOffline` do not state them.
- Client.GameClient.Frame: the rotation key, `handleInteraction(me)` and `updateDoorPhysics()` of index.tsx:200-202 are not called from the frame. The first two are the separate methods `Interaction.Interaction.RotateKey` and `Interaction.Interaction.HandleInteraction`, so the model does not state their order within one frame; the third is left out with the door physics.
- Client.GameClient.constructor: the clock at 0, the speed multiplier 1, no door states and time running are assumed initial values. state.ts:5-13 declares none of these fields, although index.tsx:194-195, index.tsx:209 and physics.ts:32 read them; as written the clock would start undefined and reading the speed multiplier would fail.
- HTML decoding is modelled only for the three entities the escaping could produce: `&lt;`, `&gt;` and `&amp;`. It is the reading of a message that the escaping findings need.
- types.ts, state.ts and constants.ts are not modelled as behaviour. Their values TILE_SIZE 40, INVENTORY_SIZE 36 and HOTBAR_SIZE 9 are used as constants.
- client.js and game.js, the prototype clients, are not part of this model.

## Findings

| source | as written | input that shows it | evidently intended | confidence | as-written member | corrected member |
|---|---|---|---|---|---|---|
| index.tsx:63-64, generation.ts:110 | the mutation log is replayed before `startGame` calls `initWorld`, which rewrites every tile of the window | a tree chopped near the origin by another player, then a new player joins the room | the log is replayed after the world is generated, so a late joiner sees earlier changes | medium, not executed | Client.ReplayErased, Client.ChoppedTreeReappears | Client.StartWorldCorrected, Client.CorrectedStartKeepsChanges |
| inventory.ts:68, interaction.ts:80, interaction.ts:96 | with a negative count the first loop of `addItem` breaks after slot 0, so spending a build item only works from slot 0 | plywood in slot 1 with slot 0 empty; building a floor leaves the plywood count unchanged | building spends one of the items used | high, not executed | Inventory.FreeConsumption, Inventory.AddedNonPositive | Inventory.Consumed, Inventory.ConsumedSpec |
| index.tsx:87-93 | on a snap the local player object is not put back into the players map, so the server's copy with 36 empty slots replaces it | a local player with items whose position differs from the server's by more than 150 | a snap corrects only the position and keeps the local inventory | medium, not executed | Client.SnapLosesInventory | Client.ReconciledKeepingLocal, Client.KeepingLocalSpec |
| server/server.js:124, server/server.js:158 | a `place_object` entry without data sets `currentObject` to undefined, and `startsWith` then throws | a worldUpdate `{x: 0, y: 0, action: 'place_object'}`, then any movement onto tile (0, 0) | entries without data are skipped, as the client's `applyWorldUpdate` skips them | medium, not executed | Server.UndefinedObjectThrows | Server.ServerObjectSkippingEmpty, Server.SkippingEmptyMatches |
| server/server.js:123, server/server.js:129 | after `destroy_object` the scan yields 'none', and the server falls back to the generated baseline | a tree at an even tile chopped by a player; the server still rejects moves onto it | a destroyed tile is empty on the server as on the clients | high, not executed | Server.ChoppedTreeStillSolid | Server.ServerObjectAfterDestroy, Server.AfterDestroySpec |
| inventory.ts:139-143 | equipping overwrites the whole slot with the piece worn before, or null | a stack of two helmets, shift-clicked with no helmet worn | one piece is worn and the rest of the stack stays | medium, not executed | Inventory.EquipStackLoses | Inventory.EquippedOne, Inventory.EquippedOneKeeps |
| interaction.ts:158-161, world.ts:67-72 | `syncDrop` announces the drop at the mined tile, while `dropItemOnGround` may place it on a neighbour | high grass mined on a tile that already holds an item; the local drop lands on the north neighbour while peers put it on the mined tile | peers place the item where the miner placed it | high, not executed | Interaction.HarvestDropDiverges | Interaction.HarvestMessagesCorrected, Interaction.HarvestReplicates |
| game.ts:250-252 | `destroyTile` builds its key from the raw arguments while `getTile` floors them | `destroyTile(1.5, 2)` on a stone at (1, 2) leaves the stone | the destroyed tile reads as grass | low (the function has no caller), not executed | Legacy.DestroyFractionalMisses | Legacy.ClearedFloored, Legacy.DestroyFlooredThenGet |
| chat.ts:17-18 | only `<` and `>` are escaped, so entities the player types are decoded by `innerHTML` | the message `&lt;` is shown as `<` | a message is shown exactly as typed, with `&` escaped first | medium, not executed | Chat.AmpersandDisplaysWrong | Chat.EscapeFull, Chat.EscapeFullDisplays |
