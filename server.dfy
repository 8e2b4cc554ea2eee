/**
 * The authoritative room server (server/server.js): rooms with their players,
 * the capped log of world mutations, the server's own collision rule (the log
 * scanned backwards, then a simplified copy of the generator), movement
 * validation with the energy rule, room create/join/leave and the world clock.
 *
 * Sockets are named by their ids.  `joined[s]` lists the rooms socket s has
 * joined in join order (socket.io's `socket.rooms`, without the socket's own
 * room); `order` is the insertion order in which `for (id in rooms)` visits
 * the rooms.  The noise cache records the seed each room's generators were
 * built from: a generator is a function of its seed string.
 */
module Server {
  import opened Wrappers
  import opened Types
  import opened World
  import opened Generation
  import opened Physics

  datatype Room = Room(id: string, name: string, seed: string, players: map<string, Player>,
                       worldChanges: seq<Update>, worldTime: int)

  /** What a join sends back to the joining socket. */
  datatype Reply = GameStart(players: map<string, Player>, changes: seq<Update>, seed: string) | RoomNotFound

  // ---------------------------------------------------------------------
  // The mutation log

  /** worldChanges.push(u), then shift() once the log exceeds 5000 entries. */
  function Appended(log: seq<Update>, u: Update): seq<Update>
  {
    if |log| + 1 > 5000 then (log + [u])[1..] else log + [u]
  }

  /** The log never exceeds 5000 entries, the newest is last, and the entries
      kept are the newest ones in their original order. */
  lemma AppendedSpec(log: seq<Update>, u: Update)
    requires |log| <= 5000
    ensures var l := Appended(log, u);
      |l| <= 5000 && |l| > 0 && l[|l| - 1] == u &&
      (|log| < 5000 ==> l == log + [u]) &&
      (|log| == 5000 ==> l == log[1..] + [u])
  {
    if |log| == 5000 {
      assert (log + [u])[1..] == log[1..] + [u];
    }
  }

  predicate IsEdit(a: Action)
  {
    a.DestroyObject? || a.PlaceObject?
  }

  predicate EditAt(u: Update, tx: int, ty: int)
  {
    u.x == tx && u.y == ty && IsEdit(u.action)
  }

  /** The index of the newest destroy_object / place_object entry for the
      tile among the first n entries, or -1. */
  function EditIndex(log: seq<Update>, tx: int, ty: int, n: nat): (i: int)
    requires n <= |log|
    ensures -1 <= i < n
  {
    if n == 0 then -1
    else if EditAt(log[n - 1], tx, ty) then n - 1
    else EditIndex(log, tx, ty, n - 1)
  }

  /** The scan finds the newest edit of the tile and skips everything else. */
  lemma {:induction false} EditIndexSpec(log: seq<Update>, tx: int, ty: int, n: nat)
    requires n <= |log|
    ensures var i := EditIndex(log, tx, ty, n);
      (i >= 0 ==> EditAt(log[i], tx, ty)) &&
      forall j :: i < j < n ==> !EditAt(log[j], tx, ty)
  {
    if n > 0 && !EditAt(log[n - 1], tx, ty) {
      EditIndexSpec(log, tx, ty, n - 1);
    }
  }

  /** Entries appended after an edit of another tile, or non-edit entries,
      do not change what the scan finds. */
  lemma EditIndexAppend(log: seq<Update>, u: Update, tx: int, ty: int)
    ensures !EditAt(u, tx, ty) ==> EditIndex(log + [u], tx, ty, |log| + 1) == EditIndex(log, tx, ty, |log|)
    ensures EditAt(u, tx, ty) ==> EditIndex(log + [u], tx, ty, |log| + 1) == |log|
  {
    if !EditAt(u, tx, ty) {
      EditIndexPrefix(log, [u], tx, ty, |log|);
    }
  }

  lemma {:induction false} EditIndexPrefix(log: seq<Update>, more: seq<Update>, tx: int, ty: int, n: nat)
    requires n <= |log|
    ensures EditIndex(log + more, tx, ty, n) == EditIndex(log, tx, ty, n)
  {
    if n > 0 {
      assert (log + more)[n - 1] == log[n - 1];
      EditIndexPrefix(log, more, tx, ty, n - 1);
    }
  }

  /** The backward loop of `isColliding` with its `break`s. */
  method ScanLog(log: seq<Update>, tx: int, ty: int) returns (index: int)
    ensures index == EditIndex(log, tx, ty, |log|)
  {
    index := -1;
    var i := |log| - 1;
    while i >= 0
      invariant -1 <= i < |log|
      invariant EditIndex(log, tx, ty, |log|) == EditIndex(log, tx, ty, i + 1)
    {
      var u := log[i];
      if u.x == tx && u.y == ty {
        if u.action.DestroyObject? {
          index := i;
          break;
        } else if u.action.PlaceObject? {
          index := i;
          break;
        }
      }
      i := i - 1;
    }
  }

  // ---------------------------------------------------------------------
  // The server's collision rule

  /** The server's copy of the generator: no riverbank rule and one tree
      threshold (0.25) for all moisture above 0.3; no high grass. */
  function Baseline(f: Fields, tx: int, ty: int): ObjectKind
  {
    if InSafeZone(tx, ty) || Elev(f, tx, ty) < 0.35 then NoObject
    else if Moist(f, tx, ty) > 0.55 || Moist(f, tx, ty) > 0.3 then
      if EvenSpacing(tx, ty) && Rnd(f, tx, ty) > 0.25 then Tree else NoObject
    else if Cluster(f, tx, ty) > 0.82 then
      if Rnd(f, tx, ty) > 0.2 then BigRock else Stone
    else NoObject
  }

  /** The object `isColliding` settles on: the newest edit's object, where
      'none' (also from destroy_object) falls back to the baseline.  `None`
      is the `undefined` a place_object entry without data yields. */
  function ServerObject(log: seq<Update>, f: Fields, tx: int, ty: int): Option<ObjectKind>
  {
    var i := EditIndex(log, tx, ty, |log|);
    var current := if i >= 0 && log[i].action.PlaceObject? then log[i].action.obj else Some(NoObject);
    if current == Some(NoObject) then Some(Baseline(f, tx, ty)) else current
  }

  /** Solid objects fill the tile; walls and doors (always closed here)
      block their 10-unit strip.  `None`: the code throws. */
  function CollidesWith(o: Option<ObjectKind>, tx: int, ty: int, wx: real, wy: real): Option<bool>
  {
    if o.None? then None
    else Some(Solid(o.value) || ((o.value.Wall? || o.value.Door?) && InStrip(o.value.side, tx, ty, wx, wy)))
  }

  function Collides(log: seq<Update>, f: Fields, wx: real, wy: real): Option<bool>
  {
    CollidesWith(ServerObject(log, f, TileOf(wx), TileOf(wy)), TileOf(wx), TileOf(wy), wx, wy)
  }

  /** The baseline is consulted: the settled object is 'none' outside the
      safe zone. */
  predicate NeedsNoise(log: seq<Update>, tx: int, ty: int)
  {
    var i := EditIndex(log, tx, ty, |log|);
    !(i >= 0 && log[i].action.PlaceObject? && log[i].action.obj != Some(NoObject)) && !InSafeZone(tx, ty)
  }

  /** The baseline rule: trees need moisture above 0.3, even coordinates
      and object noise above 0.25; stones and big rocks need moisture at
      most 0.3 and cluster noise above 0.82; nothing else appears. */
  lemma BaselineSpec(f: Fields, tx: int, ty: int)
    ensures Baseline(f, tx, ty) in {NoObject, Tree, Stone, BigRock}
    ensures Baseline(f, tx, ty) == Tree <==>
      !InSafeZone(tx, ty) && Elev(f, tx, ty) >= 0.35 && Moist(f, tx, ty) > 0.3 &&
      EvenSpacing(tx, ty) && Rnd(f, tx, ty) > 0.25
    ensures Baseline(f, tx, ty) in {Stone, BigRock} <==>
      !InSafeZone(tx, ty) && Elev(f, tx, ty) >= 0.35 && Moist(f, tx, ty) <= 0.3 && Cluster(f, tx, ty) > 0.82
    ensures Baseline(f, tx, ty) in {Stone, BigRock} ==> (Baseline(f, tx, ty) == BigRock <==> Rnd(f, tx, ty) > 0.2)
  {
  }

  /** The newest edit wins; other actions and other tiles are ignored. */
  lemma ServerObjectSpec(log: seq<Update>, f: Fields, tx: int, ty: int)
    ensures (forall j :: 0 <= j < |log| ==> !EditAt(log[j], tx, ty)) ==>
      ServerObject(log, f, tx, ty) == Some(Baseline(f, tx, ty))
    ensures forall k: ObjectKind :: k != NoObject ==>
      ServerObject(log + [Update(tx, ty, PlaceObject(Some(k)))], f, tx, ty) == Some(k)
    ensures ServerObject(log + [Update(tx, ty, DestroyObject)], f, tx, ty) == Some(Baseline(f, tx, ty))
    ensures forall u :: !EditAt(u, tx, ty) ==> ServerObject(log + [u], f, tx, ty) == ServerObject(log, f, tx, ty)
  {
    EditIndexSpec(log, tx, ty, |log|);
    EditIndexAppend(log, Update(tx, ty, DestroyObject), tx, ty);
    forall k: ObjectKind | k != NoObject
      ensures ServerObject(log + [Update(tx, ty, PlaceObject(Some(k)))], f, tx, ty) == Some(k)
    {
      EditIndexAppend(log, Update(tx, ty, PlaceObject(Some(k))), tx, ty);
    }
    forall u | !EditAt(u, tx, ty)
      ensures ServerObject(log + [u], f, tx, ty) == ServerObject(log, f, tx, ty)
    {
      EditIndexAppend(log, u, tx, ty);
      EditIndexSpec(log + [u], tx, ty, |log| + 1);
      var i := EditIndex(log, tx, ty, |log|);
      if i >= 0 {
        assert (log + [u])[i] == log[i];
      }
    }
  }

  /** Stone never collides on the server, and neither does high grass. */
  lemma PassableOnServer(log: seq<Update>, f: Fields, wx: real, wy: real)
    requires ServerObject(log, f, TileOf(wx), TileOf(wy)) in {Some(Stone), Some(HighGrass), Some(NoObject)}
    ensures Collides(log, f, wx, wy) == Some(false)
  {
  }

  /** Doors are treated as closed: a door blocks its strip whatever its angle. */
  lemma DoorsAlwaysClosed(log: seq<Update>, f: Fields, s: Side, wx: real, wy: real)
    requires ServerObject(log, f, TileOf(wx), TileOf(wy)) == Some(Door(s))
    ensures Collides(log, f, wx, wy) == Some(InStrip(s, TileOf(wx), TileOf(wy), wx, wy))
  {
  }

  /** Every tree and rock the client generates is in the server's baseline,
      and the server's rocks are exactly the client's. */
  lemma BaselineCoversClassify(f: Fields, tx: int, ty: int)
    ensures Classify(f, tx, ty).obj == Tree ==> Baseline(f, tx, ty) == Tree
    ensures Classify(f, tx, ty).obj in {Stone, BigRock} <==> Baseline(f, tx, ty) in {Stone, BigRock}
    ensures Classify(f, tx, ty).obj in {Stone, BigRock} ==> Baseline(f, tx, ty) == Classify(f, tx, ty).obj
  {
  }

  /** The converse fails: beside water the client grows high grass where the
      server's baseline has a tree. */
  lemma BaselineTreeBesideWater()
    ensures var f := Fields((u: real, v: real) => if u < 0.75 then 0.0 else 0.5,
                            (u: real, v: real) => 0.6, (u: real, v: real) => 0.5);
      Baseline(f, 10, 10) == Tree && Classify(f, 10, 10).obj == HighGrass
  {
    var f := Fields((u: real, v: real) => if u < 0.75 then 0.0 else 0.5,
                    (u: real, v: real) => 0.6, (u: real, v: real) => 0.5);
    WaterNearSquare(f, 10, 10, -2, 0);
  }

  /** The four probe points of the server's `canMoveTo`. */
  function Probes(x: real, y: real): seq<(real, real)>
  {
    [(x - 10.0, y), (x + 10.0, y), (x, y - 10.0), (x, y + 10.0)]
  }

  // ---------------------------------------------------------------------
  // Findings in the collision rule, corrected

  /** A single place_object entry without data makes every later lookup of
      that tile throw. */
  lemma UndefinedObjectThrows(log: seq<Update>, f: Fields)
    ensures Collides(log + [Update(0, 0, PlaceObject(None))], f, 0.0, 0.0).None?
  {
    EditIndexAppend(log, Update(0, 0, PlaceObject(None)), 0, 0);
  }

  /** The newest edit of the tile that the client also applies: place_object
      entries without data are skipped, as `applyWorldUpdate` skips them. */
  function DataEditIndex(log: seq<Update>, tx: int, ty: int, n: nat): (i: int)
    requires n <= |log|
    ensures -1 <= i < n
  {
    if n == 0 then -1
    else if EditAt(log[n - 1], tx, ty) && log[n - 1].action != PlaceObject(None) then n - 1
    else DataEditIndex(log, tx, ty, n - 1)
  }

  /** The settled object with entries without data skipped: always defined. */
  function ServerObjectSkippingEmpty(log: seq<Update>, f: Fields, tx: int, ty: int): (o: ObjectKind)
  {
    var i := DataEditIndex(log, tx, ty, |log|);
    var current := if i >= 0 && log[i].action.PlaceObject? && log[i].action.obj.Some? then log[i].action.obj.value else NoObject;
    if current == NoObject then Baseline(f, tx, ty) else current
  }

  /** The corrected lookup agrees with the one as written wherever that one
      does not throw. */
  lemma {:induction false} SkippingEmptyAgrees(log: seq<Update>, f: Fields, tx: int, ty: int, n: nat)
    requires n <= |log|
    requires var i := EditIndex(log, tx, ty, n); i < 0 || log[i].action != PlaceObject(None)
    ensures EditIndex(log, tx, ty, n) == DataEditIndex(log, tx, ty, n)
  {
    if n > 0 && !EditAt(log[n - 1], tx, ty) {
      SkippingEmptyAgrees(log, f, tx, ty, n - 1);
    }
  }

  lemma SkippingEmptyMatches(log: seq<Update>, f: Fields, tx: int, ty: int)
    requires ServerObject(log, f, tx, ty).Some?
    ensures ServerObject(log, f, tx, ty) == Some(ServerObjectSkippingEmpty(log, f, tx, ty))
  {
    SkippingEmptyAgrees(log, f, tx, ty, |log|);
  }

  /** After a player chops a baseline tree, the server still finds the tree. */
  lemma ChoppedTreeStillSolid(log: seq<Update>, f: Fields, tx: int, ty: int)
    requires Baseline(f, tx, ty) == Tree
    ensures ServerObject(log + [Update(tx, ty, DestroyObject)], f, tx, ty) == Some(Tree)
  {
    EditIndexAppend(log, Update(tx, ty, DestroyObject), tx, ty);
  }

  /** The settled object where only the absence of any edit falls back to
      the baseline: destroy_object and place_object 'none' leave nothing. */
  function ServerObjectAfterDestroy(log: seq<Update>, f: Fields, tx: int, ty: int): Option<ObjectKind>
  {
    var i := EditIndex(log, tx, ty, |log|);
    if i < 0 then Some(Baseline(f, tx, ty))
    else if log[i].action.PlaceObject? then log[i].action.obj
    else Some(NoObject)
  }

  /** With the correction a destroyed tile is empty, and an unedited tile is
      the baseline; where the newest edit places a real object both agree. */
  lemma AfterDestroySpec(log: seq<Update>, f: Fields, tx: int, ty: int)
    ensures ServerObjectAfterDestroy(log + [Update(tx, ty, DestroyObject)], f, tx, ty) == Some(NoObject)
    ensures (forall j :: 0 <= j < |log| ==> !EditAt(log[j], tx, ty)) ==>
      ServerObjectAfterDestroy(log, f, tx, ty) == ServerObject(log, f, tx, ty)
    ensures forall k: ObjectKind :: k != NoObject ==>
      ServerObjectAfterDestroy(log + [Update(tx, ty, PlaceObject(Some(k)))], f, tx, ty) == Some(k)
  {
    EditIndexAppend(log, Update(tx, ty, DestroyObject), tx, ty);
    EditIndexSpec(log, tx, ty, |log|);
    forall k: ObjectKind | k != NoObject
      ensures ServerObjectAfterDestroy(log + [Update(tx, ty, PlaceObject(Some(k)))], f, tx, ty) == Some(k)
    {
      EditIndexAppend(log, Update(tx, ty, PlaceObject(Some(k))), tx, ty);
    }
  }

  // ---------------------------------------------------------------------
  // Movement and energy

  function Max(a: real, b: real): real { if a >= b then a else b }
  function Min(a: real, b: real): real { if a <= b then a else b }

  /** The energy rule of an accepted move. */
  function EnergyAfterMove(s: Stats, sprint: bool): Stats
  {
    if sprint && s.energy > 0.0 then s.(energy := Max(0.0, s.energy - 0.15))
    else s.(energy := Min(s.maxEnergy, s.energy + 0.1))
  }

  predicate EnergyInRange(s: Stats)
  {
    0.0 <= s.energy <= s.maxEnergy
  }

  /** Energy stays in [0, maxEnergy]: a sprint costs 0.15, walking restores
      0.1, both clamped; nothing else in the statistics changes. */
  lemma EnergyAfterMoveSpec(s: Stats, sprint: bool)
    requires EnergyInRange(s)
    ensures EnergyInRange(EnergyAfterMove(s, sprint))
    ensures EnergyAfterMove(s, sprint) == s.(energy := EnergyAfterMove(s, sprint).energy)
    ensures sprint && s.energy > 0.0 ==> EnergyAfterMove(s, sprint).energy < s.energy
    ensures !(sprint && s.energy > 0.0) ==> EnergyAfterMove(s, sprint).energy >= s.energy
  {
  }

  /** `dist > 150`, compared squared. */
  predicate TooFar(p: Player, d: MoveData)
  {
    (d.x - p.x) * (d.x - p.x) + (d.y - p.y) * (d.y - p.y) > 22500.0
  }

  function Moved(p: Player, d: MoveData): Player
  {
    p.(x := d.x, y := d.y, direction := d.direction, stats := EnergyAfterMove(p.stats, d.sprint))
  }

  // ---------------------------------------------------------------------
  // Rooms

  const DAY_LENGTH: int := 24000

  /** `(worldTime + 5) % 24000` */
  function Ticked(t: int): int
  {
    (t + 5) % 24000
  }

  lemma TickedSpec(t: int)
    requires 0 <= t < 24000
    ensures 0 <= Ticked(t) < 24000
    ensures t < 23995 ==> Ticked(t) == t + 5
    ensures t >= 23995 ==> Ticked(t) == t + 5 - 24000
  {
  }

  predicate RoomValid(r: Room)
  {
    |r.worldChanges| <= 5000 && 0 <= r.worldTime < 24000 &&
    forall s :: s in r.players ==> EnergyInRange(r.players[s].stats)
  }

  predicate Distinct(s: seq<string>)
  {
    forall i, j :: 0 <= i < j < |s| ==> s[i] != s[j]
  }

  /** The player a socket gets on joining. */
  function NewPlayer(sid: string, nickname: Option<string>, color: string): Player
  {
    Player(sid, 0.0, 0.0, color, OrDefault(nickname, "Player"), Front,
           EMPTY_INVENTORY, NO_EQUIPMENT, START_STATS)
  }

  /** A joining player stands at the origin with 36 empty slots and full energy. */
  lemma NewPlayerSpec(sid: string, nickname: Option<string>, color: string)
    ensures var p := NewPlayer(sid, nickname, color);
      p.x == 0.0 && p.y == 0.0 && |p.inventory| == 36 &&
      (forall i :: 0 <= i < 36 ==> p.inventory[i].None?) && EnergyInRange(p.stats)
  {
  }

  /** The first listed room that still exists. */
  function FirstExisting(rs: seq<string>, rooms: map<string, Room>): (r: Option<string>)
    ensures r.Some? ==> r.value in rooms && r.value in rs
  {
    if rs == [] then None
    else if rs[0] in rooms then Some(rs[0])
    else FirstExisting(rs[1..], rooms)
  }

  /** The first room in `order` that holds the socket's player, as an index
      into `order` (|order| when there is none). */
  function HolderIndex(order: seq<string>, rooms: map<string, Room>, sid: string, k: nat): (i: nat)
    requires k <= |order|
    ensures k <= i <= |order|
    decreases |order| - k
  {
    if k == |order| then |order|
    else if order[k] in rooms && sid in rooms[order[k]].players then k
    else HolderIndex(order, rooms, sid, k + 1)
  }

  lemma {:induction false} HolderIndexSpec(order: seq<string>, rooms: map<string, Room>, sid: string, k: nat)
    requires k <= |order|
    ensures var i := HolderIndex(order, rooms, sid, k);
      (i < |order| ==> order[i] in rooms && sid in rooms[order[i]].players) &&
      forall j :: k <= j < i ==> !(order[j] in rooms && sid in rooms[order[j]].players)
    decreases |order| - k
  {
    if k < |order| && !(order[k] in rooms && sid in rooms[order[k]].players) {
      HolderIndexSpec(order, rooms, sid, k + 1);
    }
  }

  /** The rooms after the socket's player leaves room r. */
  function WithoutPlayer(rooms: map<string, Room>, r: string, sid: string): map<string, Room>
    requires r in rooms
  {
    var room := rooms[r].(players := rooms[r].players - {sid});
    if room.players == map[] then rooms - {r} else rooms[r := room]
  }

  function Without(order: seq<string>, r: string): (o: seq<string>)
    ensures forall x :: x in o <==> x in order && x != r
  {
    if order == [] then []
    else if order[0] == r then Without(order[1..], r)
    else [order[0]] + Without(order[1..], r)
  }

  lemma {:induction false} WithoutDistinct(order: seq<string>, r: string)
    requires Distinct(order)
    ensures Distinct(Without(order, r))
  {
    if order != [] {
      assert Distinct(order[1..]) by {
        forall i, j | 0 <= i < j < |order| - 1 ensures order[1..][i] != order[1..][j] {
          assert order[1..][i] == order[i + 1] && order[1..][j] == order[j + 1];
        }
      }
      WithoutDistinct(order[1..], r);
      if order[0] != r {
        var o := [order[0]] + Without(order[1..], r);
        forall i, j | 0 <= i < j < |o| ensures o[i] != o[j] {
          if i == 0 {
            assert o[j] in Without(order[1..], r);
            assert order[0] !in order[1..];
          } else {
            assert o[i] == Without(order[1..], r)[i - 1] && o[j] == Without(order[1..], r)[j - 1];
          }
        }
      }
    }
  }

  /** The server's invariant over its rooms: logs capped, clocks in range,
      energies in range, each room filed under its id, the cache only for
      live rooms and `order` listing every room once. */
  ghost predicate RoomsValid(rooms: map<string, Room>, cache: map<string, string>, order: seq<string>)
  {
    (forall r :: r in rooms ==> RoomValid(rooms[r]) && rooms[r].id == r) &&
    (forall r :: r in cache ==> r in rooms) &&
    Distinct(order) && (forall r :: r in rooms <==> r in order)
  }

  lemma RemoveRoomValid(rooms: map<string, Room>, cache: map<string, string>, order: seq<string>, r: string)
    requires RoomsValid(rooms, cache, order) && r in rooms
    ensures RoomsValid(rooms - {r}, cache - {r}, Without(order, r))
  {
    WithoutDistinct(order, r);
  }

  /** Removing a player keeps the invariant; an emptied room leaves the
      order and the noise cache with it. */
  lemma WithoutPlayerValid(rooms: map<string, Room>, cache: map<string, string>, order: seq<string>, r: string, sid: string)
    requires RoomsValid(rooms, cache, order) && r in rooms
    ensures var rs := WithoutPlayer(rooms, r, sid);
      if r in rs then RoomsValid(rs, cache, order) else RoomsValid(rs, cache - {r}, Without(order, r))
  {
    var room := rooms[r].(players := rooms[r].players - {sid});
    if room.players == map[] {
      RemoveRoomValid(rooms, cache, order, r);
    } else {
      ReplaceRoomValid(rooms, cache, order, r, room);
    }
  }

  /** The rooms listed in the first k entries of `order` have ticked. */
  ghost predicate TickedPrefix(rooms0: map<string, Room>, rooms: map<string, Room>, order: seq<string>, k: nat)
    requires k <= |order|
  {
    rooms.Keys == rooms0.Keys &&
    forall r :: r in rooms ==>
      rooms[r] == if r in order[..k] then rooms0[r].(worldTime := Ticked(rooms0[r].worldTime)) else rooms0[r]
  }

  lemma TickStep(rooms0: map<string, Room>, rooms: map<string, Room>, cache: map<string, string>, order: seq<string>, k: nat)
    requires k < |order| && RoomsValid(rooms, cache, order) && TickedPrefix(rooms0, rooms, order, k)
    ensures var room := rooms[order[k]];
      RoomsValid(rooms[order[k] := room.(worldTime := Ticked(room.worldTime))], cache, order) &&
      TickedPrefix(rooms0, rooms[order[k] := room.(worldTime := Ticked(room.worldTime))], order, k + 1)
  {
    var r := order[k];
    assert r !in order[..k];
    assert order[..k + 1] == order[..k] + [r];
    TickedSpec(rooms[r].worldTime);
  }

  lemma ReplaceRoomValid(rooms: map<string, Room>, cache: map<string, string>, order: seq<string>, r: string, room: Room)
    requires RoomsValid(rooms, cache, order) && r in rooms && RoomValid(room) && room.id == r
    ensures RoomsValid(rooms[r := room], cache, order)
  {
  }

  /** The room `createRoom` files before the creator joins: the name falls
      back to "Room " and the id's first four characters, the seed to
      'terrawilds', the clock starts at noon (6000). */
  function FreshRoom(roomId: string, roomName: Option<string>, seed: Option<string>): Room
  {
    var prefix := if |roomId| >= 4 then roomId[..4] else roomId;
    Room(roomId, OrDefault(roomName, "Room " + prefix), OrDefault(seed, "terrawilds"), map[], [], 6000)
  }

  lemma UpdateTwice<K, V>(m: map<K, V>, k: K, a: V, b: V)
    ensures m[k := a][k := b] == m[k := b]
  {
  }

  lemma UpdateEmpty<K, V>(m: map<K, V>, k: K, v: V)
    requires m == map[]
    ensures m[k := v] == map[k := v]
  {
  }

  /** A room put under its id, new or replacing, keeps the invariant; a
      new id goes to the end of the order. */
  lemma PutRoomValid(rooms: map<string, Room>, cache: map<string, string>, order: seq<string>, r: string, room: Room)
    requires RoomsValid(rooms, cache, order) && RoomValid(room) && room.id == r
    ensures RoomsValid(rooms[r := room], cache, if r in rooms then order else order + [r])
  {
    if r in rooms {
      ReplaceRoomValid(rooms, cache, order, r, room);
    } else {
      var o := order + [r];
      forall i, j | 0 <= i < j < |o| ensures o[i] != o[j]
      {
        if j < |order| {
          assert o[i] == order[i] && o[j] == order[j];
        } else {
          assert o[i] == order[i] && order[i] in order;
        }
      }
      assert forall q :: q in o <==> q in order || q == r;
    }
  }

  /** The outcome of the server's `canMoveTo` from probe k on, and the noise
      cache after it: the first probe that collides or throws ends the loop. */
  function ProbeOutcome(gens: string -> Fields, rooms: map<string, Room>, cache: map<string, string>, roomId: string,
                        ps: seq<(real, real)>, k: nat): (Option<bool>, map<string, string>)
    requires k <= |ps|
    decreases |ps| - k
  {
    if k == |ps| then (Some(true), cache)
    else
      var c := Collided(gens, rooms, cache, roomId, ps[k].0, ps[k].1);
      var cache' := CacheAfter(rooms, cache, roomId, ps[k].0, ps[k].1);
      if c.None? then (None, cache')
      else if c.value then (Some(false), cache')
      else ProbeOutcome(gens, rooms, cache', roomId, ps, k + 1)
  }

  /** The seed of the generators a lookup in the room uses: the cached one,
      else the room's own. */
  function SeedFor(rooms: map<string, Room>, cache: map<string, string>, roomId: string): string
    requires roomId in rooms
  {
    if roomId in cache then cache[roomId] else rooms[roomId].seed
  }

  /** `isColliding(roomId, wx, wy)` where `gens` builds a room's noise
      fields from a seed; a missing room never collides. */
  function Collided(gens: string -> Fields, rooms: map<string, Room>, cache: map<string, string>,
                    roomId: string, wx: real, wy: real): Option<bool>
  {
    if roomId !in rooms then Some(false)
    else Collides(rooms[roomId].worldChanges, gens(SeedFor(rooms, cache, roomId)), wx, wy)
  }

  /** The cache after one lookup: filled for the room when the baseline is
      consulted. */
  function CacheAfter(rooms: map<string, Room>, cache: map<string, string>, roomId: string, wx: real, wy: real): map<string, string>
  {
    if roomId in rooms && NeedsNoise(rooms[roomId].worldChanges, TileOf(wx), TileOf(wy))
    then cache[roomId := SeedFor(rooms, cache, roomId)] else cache
  }

  /** A lookup never changes which seed the room's later lookups use. */
  lemma CacheAfterKeepsSeed(rooms: map<string, Room>, cache: map<string, string>, roomId: string, wx: real, wy: real)
    requires roomId in rooms
    ensures SeedFor(rooms, CacheAfter(rooms, cache, roomId, wx, wy), roomId) == SeedFor(rooms, cache, roomId)
  {
  }

  // ---------------------------------------------------------------------
  // The server state

  class RoomServer {
    var rooms: map<string, Room>
    var order: seq<string>
    var noiseCache: map<string, string>
    var joined: map<string, seq<string>>
    /** The generator construction of `getNoiseGenerators`. */
    const generators: string -> Fields

    ghost predicate Valid()
      reads this
    {
      RoomsValid(rooms, noiseCache, order)
    }

    constructor ()
      ensures Valid() && rooms == map[] && order == [] && noiseCache == map[] && joined == map[]
      ensures forall seed :: generators(seed) == FieldsOf(seed)
    {
      rooms, order, noiseCache, joined := map[], [], map[], map[];
      generators := FieldsOf;
    }

    /** The room a socket's messages go to. */
    function CurrentRoom(sid: string): Option<string>
      reads this
    {
      FirstExisting(if sid in joined then joined[sid] else [], rooms)
    }

    /** `getNoiseGenerators(roomId, seed)`: built once per room. */
    method GetNoiseGenerators(roomId: string, seed: string) returns (used: string)
      modifies this
      ensures used == if roomId in old(noiseCache) then old(noiseCache)[roomId] else seed
      ensures noiseCache == old(noiseCache)[roomId := used]
      ensures rooms == old(rooms) && order == old(order) && joined == old(joined)
    {
      if roomId !in noiseCache {
        noiseCache := noiseCache[roomId := seed];
      }
      used := noiseCache[roomId];
    }

    /** The baseline computation of `isColliding` outside the safe zone. */
    static method ComputeBaseline(f: Fields, tileX: int, tileY: int) returns (o: ObjectKind)
      requires !InSafeZone(tileX, tileY)
      ensures o == Baseline(f, tileX, tileY)
    {
      o := NoObject;
      var elev := f.elevation(tileX as real * 0.08, tileY as real * 0.08);
      var moist := f.moisture(tileX as real * 0.08, tileY as real * 0.08);
      var rnd := f.objects(tileX as real * 0.5, tileY as real * 0.5);
      if elev >= 0.35 {
        if moist > 0.55 || moist > 0.3 {
          var isSpacingValid := Abs(tileX) % 2 == 0 && Abs(tileY) % 2 == 0;
          if isSpacingValid && rnd > 0.25 {
            o := Tree;
          }
        } else {
          var clusterNoise := f.objects(tileX as real * 0.1, tileY as real * 0.1);
          if clusterNoise > 0.82 {
            o := if rnd > 0.2 then BigRock else Stone;
          }
        }
      }
    }

    /** The body of `isColliding` for a room with log `log` whose
        generators are `f`; `consulted` when it reads the generators. */
    static method ObjectCollision(log: seq<Update>, f: Fields, worldX: real, worldY: real)
      returns (r: Option<bool>, consulted: bool)
      ensures r == Collides(log, f, worldX, worldY)
      ensures consulted == NeedsNoise(log, TileOf(worldX), TileOf(worldY))
    {
      var tileX := (worldX / 40.0).Floor;
      var tileY := (worldY / 40.0).Floor;
      var current: Option<ObjectKind> := Some(NoObject);
      var i := ScanLog(log, tileX, tileY);
      if i >= 0 {
        EditIndexSpec(log, tileX, tileY, |log|);
        match log[i].action {
          case DestroyObject => current := Some(NoObject);
          case PlaceObject(d) => current := d;
        }
      }
      consulted := false;
      if current == Some(NoObject) {
        if tileX * tileX + tileY * tileY >= 25 {
          consulted := true;
          var o := ComputeBaseline(f, tileX, tileY);
          current := Some(o);
        } else {
          current := Some(Baseline(f, tileX, tileY));
        }
      }
      if current.None? {
        return None, consulted;
      }
      var obj := current.value;
      if obj == Tree || obj == BigRock || obj == Workbench {
        return Some(true), consulted;
      }
      if obj.Wall? || obj.Door? {
        if InStrip(obj.side, tileX, tileY, worldX, worldY) {
          return Some(true), consulted;
        }
      }
      return Some(false), consulted;
    }

    /** `isColliding(roomId, worldX, worldY)`; `None` where the code throws. */
    method IsColliding(roomId: string, worldX: real, worldY: real) returns (r: Option<bool>)
      requires Valid()
      modifies this
      ensures Valid()
      ensures r == Collided(generators, old(rooms), old(noiseCache), roomId, worldX, worldY)
      ensures noiseCache == CacheAfter(old(rooms), old(noiseCache), roomId, worldX, worldY)
      ensures rooms == old(rooms) && order == old(order) && joined == old(joined)
    {
      if roomId !in rooms {
        return Some(false);
      }
      var room := rooms[roomId];
      var consulted;
      r, consulted := ObjectCollision(room.worldChanges, generators(SeedFor(rooms, noiseCache, roomId)), worldX, worldY);
      if consulted {
        var _ := GetNoiseGenerators(roomId, room.seed);
      }
    }

    /** The server's `canMoveTo(roomId, x, y)` over the four probes. */
    method CanMoveTo(roomId: string, x: real, y: real) returns (r: Option<bool>)
      requires Valid()
      modifies this
      ensures Valid()
      ensures (r, noiseCache) == ProbeOutcome(generators, old(rooms), old(noiseCache), roomId, Probes(x, y), 0)
      ensures rooms == old(rooms) && order == old(order) && joined == old(joined)
    {
      var points := Probes(x, y);
      var k := 0;
      while k < 4
        invariant 0 <= k <= 4 && Valid()
        invariant rooms == old(rooms) && order == old(order) && joined == old(joined)
        invariant ProbeOutcome(generators, rooms, old(noiseCache), roomId, points, 0) ==
                  ProbeOutcome(generators, rooms, noiseCache, roomId, points, k)
      {
        var c := IsColliding(roomId, points[k].0, points[k].1);
        if c.None? {
          return None;
        }
        if c.value {
          return Some(false);
        }
        k := k + 1;
      }
      return Some(true);
    }

    /** An accepted move: position and direction taken from the message,
        energy spent by a sprint or restored by a walk. */
    static method Commit(player: Player, data: MoveData) returns (p: Player)
      ensures p == Moved(player, data)
      ensures EnergyInRange(player.stats) ==> EnergyInRange(p.stats)
    {
      p := player.(x := data.x, y := data.y, direction := data.direction);
      if data.sprint && p.stats.energy > 0.0 {
        p := p.(stats := p.stats.(energy := Max(0.0, p.stats.energy - 0.15)));
      } else {
        p := p.(stats := p.stats.(energy := Min(p.stats.maxEnergy, p.stats.energy + 0.1)));
      }
      if EnergyInRange(player.stats) {
        EnergyAfterMoveSpec(player.stats, data.sprint);
      }
    }

    /** The `movement` handler; `crashed` when a lookup threw. */
    method Movement(sid: string, data: MoveData) returns (crashed: bool)
      requires Valid()
      modifies this
      ensures Valid()
      ensures order == old(order) && joined == old(joined)
      ensures var rid := old(CurrentRoom(sid));
        if rid.None? || sid !in old(rooms)[rid.value].players || TooFar(old(rooms)[rid.value].players[sid], data) then
          !crashed && rooms == old(rooms) && noiseCache == old(noiseCache)
        else
          var (ok, cache') := ProbeOutcome(generators, old(rooms), old(noiseCache), rid.value, Probes(data.x, data.y), 0);
          var room := old(rooms)[rid.value];
          crashed == ok.None? && noiseCache == cache' &&
          rooms == if ok == Some(true)
                   then old(rooms)[rid.value := room.(players := room.players[sid := Moved(room.players[sid], data)])]
                   else old(rooms)
    {
      crashed := false;
      var rid := CurrentRoom(sid);
      if rid.None? || sid !in rooms[rid.value].players {
        return;
      }
      var roomId := rid.value;
      var player := rooms[roomId].players[sid];
      if TooFar(player, data) {
        return;
      }
      var ok := CanMoveTo(roomId, data.x, data.y);
      if ok.None? {
        return true;
      }
      if ok.value {
        var p := Commit(player, data);
        var room := rooms[roomId];
        ReplaceRoomValid(rooms, noiseCache, order, roomId, room.(players := room.players[sid := p]));
        rooms := rooms[roomId := room.(players := room.players[sid := p])];
      }
    }

    /** The `worldUpdate` handler: the capped append, nothing validated. */
    method WorldUpdate(sid: string, u: Update)
      requires Valid()
      modifies this
      ensures Valid()
      ensures order == old(order) && joined == old(joined) && noiseCache == old(noiseCache)
      ensures var rid := old(CurrentRoom(sid));
        rooms == if rid.None? then old(rooms)
                 else old(rooms)[rid.value := old(rooms)[rid.value].(worldChanges := Appended(old(rooms)[rid.value].worldChanges, u))]
    {
      var rid := CurrentRoom(sid);
      if rid.Some? {
        var room := rooms[rid.value];
        var log := room.worldChanges + [u];
        if |log| > 5000 {
          log := log[1..];
        }
        AppendedSpec(room.worldChanges, u);
        rooms := rooms[rid.value := room.(worldChanges := log)];
      }
    }

    /** `joinRoom(socket, roomId, nickname)` on an existing room. */
    method JoinRoom(sid: string, roomId: string, nickname: Option<string>, color: string) returns (reply: Reply)
      requires Valid() && roomId in rooms
      modifies this
      ensures Valid()
      ensures order == old(order) && noiseCache == old(noiseCache)
      ensures var list := if sid in old(joined) then old(joined)[sid] else [];
        joined == old(joined)[sid := if roomId in list then list else list + [roomId]]
      ensures var room := old(rooms)[roomId];
        rooms == old(rooms)[roomId := room.(players := room.players[sid := NewPlayer(sid, nickname, color)])]
      ensures reply == GameStart(rooms[roomId].players, rooms[roomId].worldChanges, rooms[roomId].seed)
    {
      var list := if sid in joined then joined[sid] else [];
      if roomId !in list {
        list := list + [roomId];
      }
      joined := joined[sid := list];
      var room := rooms[roomId];
      NewPlayerSpec(sid, nickname, color);
      room := room.(players := room.players[sid := NewPlayer(sid, nickname, color)]);
      rooms := rooms[roomId := room];
      reply := GameStart(room.players, room.worldChanges, room.seed);
    }

    /** The `joinRoom` handler: an unknown room only earns an error. */
    method JoinRoomRequest(sid: string, roomId: string, nickname: Option<string>, color: string) returns (reply: Reply)
      requires Valid()
      modifies this
      ensures Valid()
      ensures roomId !in old(rooms) ==>
        reply == RoomNotFound && rooms == old(rooms) && order == old(order) &&
        noiseCache == old(noiseCache) && joined == old(joined)
      ensures roomId in old(rooms) ==>
        order == old(order) && noiseCache == old(noiseCache) &&
        (var list := if sid in old(joined) then old(joined)[sid] else [];
         joined == old(joined)[sid := if roomId in list then list else list + [roomId]]) &&
        (var room := old(rooms)[roomId];
         rooms == old(rooms)[roomId := room.(players := room.players[sid := NewPlayer(sid, nickname, color)])]) &&
        reply == GameStart(rooms[roomId].players, rooms[roomId].worldChanges, rooms[roomId].seed)
    {
      if roomId in rooms {
        reply := JoinRoom(sid, roomId, nickname, color);
      } else {
        reply := RoomNotFound;
      }
    }

    /** The `createRoom` handler; `roomId` is the random hex id, and an
        existing room of that id is replaced. */
    method CreateRoom(sid: string, roomId: string, roomName: Option<string>, nickname: Option<string>,
                      seed: Option<string>, color: string) returns (reply: Reply)
      requires Valid()
      modifies this
      ensures Valid()
      ensures rooms == old(rooms)[roomId := FreshRoom(roomId, roomName, seed).(players := map[sid := NewPlayer(sid, nickname, color)])]
      ensures order == if roomId in old(rooms) then old(order) else old(order) + [roomId]
      ensures noiseCache == old(noiseCache)
      ensures var list := if sid in old(joined) then old(joined)[sid] else [];
        joined == old(joined)[sid := if roomId in list then list else list + [roomId]]
      ensures reply == GameStart(rooms[roomId].players, [], rooms[roomId].seed)
    {
      ghost var rooms0 := rooms;
      var room := FreshRoom(roomId, roomName, seed);
      FileRoom(roomId, room);
      reply := JoinRoom(sid, roomId, nickname, color);
      var joinedRoom := room.(players := map[sid := NewPlayer(sid, nickname, color)]);
      UpdateEmpty(room.players, sid, NewPlayer(sid, nickname, color));
      UpdateTwice(rooms0, roomId, room, joinedRoom);
    }

    /** Files a room under its id, new or replacing. */
    method FileRoom(roomId: string, room: Room)
      requires Valid() && RoomValid(room) && room.id == roomId
      modifies this
      ensures Valid()
      ensures rooms == old(rooms)[roomId := room]
      ensures order == if roomId in old(rooms) then old(order) else old(order) + [roomId]
      ensures noiseCache == old(noiseCache) && joined == old(joined)
    {
      PutRoomValid(rooms, noiseCache, order, roomId, room);
      if roomId !in rooms {
        order := order + [roomId];
      }
      rooms := rooms[roomId := room];
    }

    /** The player leaves the room, which is deleted with its noise cache
        once empty. */
    method RemovePlayer(roomId: string, sid: string)
      requires Valid() && roomId in rooms
      modifies this
      ensures Valid() && joined == old(joined)
      ensures rooms == WithoutPlayer(old(rooms), roomId, sid)
      ensures roomId in rooms ==> order == old(order) && noiseCache == old(noiseCache)
      ensures roomId !in rooms ==> order == Without(old(order), roomId) && noiseCache == old(noiseCache) - {roomId}
    {
      WithoutPlayerValid(rooms, noiseCache, order, roomId, sid);
      var room := rooms[roomId].(players := rooms[roomId].players - {sid});
      if room.players == map[] {
        rooms, order, noiseCache := rooms - {roomId}, Without(order, roomId), noiseCache - {roomId};
      } else {
        rooms := rooms[roomId := room];
      }
    }

    /** The `disconnect` handler: the first room holding the player loses it
        and is deleted, with its noise cache, once empty. */
    method Disconnect(sid: string)
      requires Valid()
      modifies this
      ensures Valid()
      ensures joined == old(joined) - {sid}
      ensures var i := HolderIndex(old(order), old(rooms), sid, 0);
        if i == |old(order)| then rooms == old(rooms) && order == old(order) && noiseCache == old(noiseCache)
        else
          var r := old(order)[i];
          rooms == WithoutPlayer(old(rooms), r, sid) &&
          (r in rooms ==> order == old(order) && noiseCache == old(noiseCache)) &&
          (r !in rooms ==> order == Without(old(order), r) && noiseCache == old(noiseCache) - {r})
    {
      HolderIndexSpec(order, rooms, sid, 0);
      var k := 0;
      while k < |order| && sid !in rooms[order[k]].players
        invariant 0 <= k <= |order|
        invariant HolderIndex(order, rooms, sid, k) == HolderIndex(order, rooms, sid, 0)
      {
        k := k + 1;
      }
      if k < |order| {
        RemovePlayer(order[k], sid);
      }
      joined := joined - {sid};
    }

    /** One tick of the main loop: every room's clock advances by 5 modulo 24000. */
    method Tick()
      requires Valid()
      modifies this
      ensures Valid()
      ensures order == old(order) && noiseCache == old(noiseCache) && joined == old(joined)
      ensures rooms.Keys == old(rooms).Keys
      ensures forall r :: r in rooms ==> rooms[r] == old(rooms)[r].(worldTime := Ticked(old(rooms)[r].worldTime))
    {
      var k := 0;
      while k < |order|
        invariant 0 <= k <= |order| && order == old(order)
        invariant noiseCache == old(noiseCache) && joined == old(joined)
        invariant RoomsValid(rooms, noiseCache, order) && TickedPrefix(old(rooms), rooms, order, k)
      {
        var roomId := order[k];
        var room := rooms[roomId];
        TickStep(old(rooms), rooms, noiseCache, order, k);
        rooms := rooms[roomId := room.(worldTime := (room.worldTime + 5) % 24000)];
        k := k + 1;
      }
      assert order[..k] == order;
    }
  }
}
