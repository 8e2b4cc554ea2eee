/**
 * The local player's inventory (inventory.ts): 36 slots of stacks capped at
 * 64, filled by `addItem`, drained from the top by `removeItem`, merged or
 * swapped by drag and drop, the hotbar selection, crafting and the three
 * armour slots.
 */
module Inventory {
  import opened Wrappers
  import opened Types
  import opened Recipes

  const INVENTORY_SIZE: nat := 36
  const HOTBAR_SIZE: nat := 9
  const STACK_LIMIT: int := 64

  function Min(a: int, b: int): int { if a <= b then a else b }

  /** `getInventory`'s repair: a slot list of any other length is replaced
      by 36 empty slots. */
  function Normalized(s: seq<Slot>): (r: seq<Slot>)
    ensures |r| == INVENTORY_SIZE
    ensures |s| == INVENTORY_SIZE ==> r == s
    ensures |s| != INVENTORY_SIZE ==> forall i :: 0 <= i < |r| ==> r[i] == None
  {
    if |s| == INVENTORY_SIZE then s else EMPTY_INVENTORY
  }

  /** 36 slots, every stack holding between 1 and 64 items. */
  predicate Valid(s: seq<Slot>)
  {
    |s| == INVENTORY_SIZE && forall i :: 0 <= i < |s| && s[i].Some? ==> 1 <= s[i].value.count <= STACK_LIMIT
  }

  /** Every stack count is non-negative. */
  predicate NonNegative(s: seq<Slot>)
  {
    forall i :: 0 <= i < |s| && s[i].Some? ==> s[i].value.count >= 0
  }

  // ---------------------------------------------------------------------
  // Counting

  /** What a slot contributes to a per-slot total. */
  datatype Measure = Held | StackRoom | NullRoom

  function Part(slot: Slot, t: string, m: Measure): int
  {
    match m
    case Held => if slot.Some? && slot.value.kind == t then slot.value.count else 0
    case StackRoom =>
      if slot.Some? && slot.value.kind == t && slot.value.count < STACK_LIMIT then STACK_LIMIT - slot.value.count else 0
    case NullRoom => if slot.None? then STACK_LIMIT else 0
  }

  /** The slot-by-slot sum, left to right like `reduce`. */
  function Total(s: seq<Slot>, t: string, m: Measure): int
  {
    if s == [] then 0 else Total(s[..|s| - 1], t, m) + Part(s[|s| - 1], t, m)
  }

  /** `countItem(t)` on a slot list. */
  function Count(s: seq<Slot>, t: string): int
  {
    Total(s, t, Held)
  }

  /** How many more `t` items `addItem` can place: the room left on `t`
      stacks and 64 per empty slot. */
  function FreeCapacity(s: seq<Slot>, t: string): int
  {
    Total(s, t, StackRoom) + Total(s, t, NullRoom)
  }

  /** Rewriting one slot changes the total by that slot's difference. */
  lemma {:induction false} TotalUpdate(s: seq<Slot>, i: nat, v: Slot, t: string, m: Measure)
    requires i < |s|
    ensures Total(s[i := v], t, m) == Total(s, t, m) - Part(s[i], t, m) + Part(v, t, m)
    decreases |s|
  {
    var n := |s| - 1;
    assert s[i := v][..n] == if i == n then s[..n] else s[..n][i := v];
    if i < n {
      TotalUpdate(s[..n], i, v, t, m);
    }
  }

  lemma {:induction false} TotalNonNegative(s: seq<Slot>, t: string, m: Measure)
    requires Valid(s) || (m != StackRoom && NonNegative(s))
    ensures Total(s, t, m) >= 0
    decreases |s|
  {
    if s != [] {
      var n := |s| - 1;
      if m != StackRoom {
        assert NonNegative(s[..n]) by {
          forall i | 0 <= i < n && s[..n][i].Some? ensures s[..n][i].value.count >= 0 {
            assert s[..n][i] == s[i];
          }
        }
        TotalNonNegative(s[..n], t, m);
      } else {
        TotalAllNonNegative(s, t);
      }
    }
  }

  /** Room on a stack is never negative, whatever the counts. */
  lemma {:induction false} TotalAllNonNegative(s: seq<Slot>, t: string)
    ensures Total(s, t, StackRoom) >= 0
    decreases |s|
  {
    if s != [] {
      TotalAllNonNegative(s[..|s| - 1], t);
    }
  }

  /** A total is zero when every slot contributes zero and no slot
      contributes a negative amount. */
  lemma {:induction false} TotalZero(s: seq<Slot>, t: string, m: Measure)
    requires forall i :: 0 <= i < |s| ==> Part(s[i], t, m) == 0
    ensures Total(s, t, m) == 0
    decreases |s|
  {
    if s != [] {
      var n := |s| - 1;
      assert forall i :: 0 <= i < n ==> s[..n][i] == s[i];
      TotalZero(s[..n], t, m);
    }
  }

  /** Two lists that agree on every slot's contribution have the same total. */
  lemma {:induction false} TotalSame(s: seq<Slot>, r: seq<Slot>, t: string, m: Measure)
    requires |s| == |r| && forall i :: 0 <= i < |s| ==> Part(s[i], t, m) == Part(r[i], t, m)
    ensures Total(s, t, m) == Total(r, t, m)
    decreases |s|
  {
    if s != [] {
      var n := |s| - 1;
      assert forall i :: 0 <= i < n ==> s[..n][i] == s[i] && r[..n][i] == r[i];
      TotalSame(s[..n], r[..n], t, m);
    }
  }

  // ---------------------------------------------------------------------
  // addItem

  /** The first loop of `addItem` from slot i on: top up `t` stacks below 64,
      stopping as soon as nothing remains. */
  function FillStacks(s: seq<Slot>, t: string, rem: int, i: nat): (seq<Slot>, int)
    requires i <= |s|
    decreases |s| - i
  {
    if i == |s| then (s, rem)
    else
      var slot := s[i];
      var (s1, r1) :=
        if slot.Some? && slot.value.kind == t && slot.value.count < STACK_LIMIT then
          var add := Min(STACK_LIMIT - slot.value.count, rem);
          (s[i := Some(Item(t, slot.value.count + add))], rem - add)
        else (s, rem);
      if r1 <= 0 then (s1, r1) else FillStacks(s1, t, r1, i + 1)
  }

  /** The second loop: new stacks of up to 64 in empty slots from slot i on. */
  function FillEmpty(s: seq<Slot>, t: string, rem: int, i: nat): (seq<Slot>, int)
    requires i <= |s|
    decreases |s| - i
  {
    if i == |s| || rem <= 0 then (s, rem)
    else if s[i].None? then
      var add := Min(STACK_LIMIT, rem);
      FillEmpty(s[i := Some(Item(t, add))], t, rem - add, i + 1)
    else FillEmpty(s, t, rem, i + 1)
  }

  /** `addItem(t, c)` on a slot list of the right length. */
  function Added(s: seq<Slot>, t: string, c: int): seq<Slot>
  {
    var (s1, r1) := FillStacks(s, t, c, 0);
    FillEmpty(s1, t, r1, 0).0
  }

  /** Slot i of r is slot i of s, or a `t` stack where s had a `t` stack or
      an empty slot. */
  predicate OnlyTouches(s: seq<Slot>, r: seq<Slot>, t: string)
  {
    |r| == |s| &&
    forall i :: 0 <= i < |s| ==>
      r[i] == s[i] || ((s[i].None? || s[i].value.kind == t) && r[i].Some? && r[i].value.kind == t)
  }

  /** The first loop with a positive amount: every stack it raises stays
      within 64, nothing is left negative, and empty slots stay empty. */
  lemma {:induction false} FillStacksShape(s: seq<Slot>, t: string, rem: int, i: nat)
    requires Valid(s) && i <= |s| && rem > 0
    ensures var (r, left) := FillStacks(s, t, rem, i);
      Valid(r) && OnlyTouches(s, r, t) && 0 <= left <= rem &&
      (forall j :: 0 <= j < |s| ==> (r[j].None? <==> s[j].None?))
    decreases |s| - i
  {
    if i < |s| {
      var slot := s[i];
      if slot.Some? && slot.value.kind == t && slot.value.count < STACK_LIMIT {
        var add := Min(STACK_LIMIT - slot.value.count, rem);
        if rem - add > 0 {
          FillStacksShape(s[i := Some(Item(t, slot.value.count + add))], t, rem - add, i + 1);
        }
      } else {
        FillStacksShape(s, t, rem, i + 1);
      }
    }
  }

  /** The amount the first loop places is the room it used on `t` stacks,
      and when something remains no `t` stack has room left. */
  lemma {:induction false} FillStacksSpec(s: seq<Slot>, t: string, rem: int, i: nat)
    requires Valid(s) && i <= |s| && rem > 0
    requires forall j :: 0 <= j < i ==> Part(s[j], t, StackRoom) == 0
    ensures var (r, left) := FillStacks(s, t, rem, i);
      Count(r, t) == Count(s, t) + (rem - left) &&
      Total(r, t, StackRoom) == Total(s, t, StackRoom) - (rem - left) &&
      Total(r, t, NullRoom) == Total(s, t, NullRoom) &&
      (left > 0 ==> Total(r, t, StackRoom) == 0)
    decreases |s| - i
  {
    if i == |s| {
      TotalZero(s, t, StackRoom);
    } else {
      var slot := s[i];
      if slot.Some? && slot.value.kind == t && slot.value.count < STACK_LIMIT {
        var add := Min(STACK_LIMIT - slot.value.count, rem);
        var v := Some(Item(t, slot.value.count + add));
        var s1 := s[i := v];
        TotalUpdate(s, i, v, t, Held);
        TotalUpdate(s, i, v, t, StackRoom);
        TotalUpdate(s, i, v, t, NullRoom);
        if rem - add > 0 {
          assert Valid(s1);
          FillStacksSpec(s1, t, rem - add, i + 1);
        }
      } else {
        FillStacksSpec(s, t, rem, i + 1);
      }
    }
  }

  /** The second loop with a non-negative amount: every empty slot it passes
      while something remains takes a stack of up to 64, so the amount placed
      is at most the empty room and equals it when something is left over. */
  lemma {:induction false} FillEmptySpec(s: seq<Slot>, t: string, rem: int, i: nat)
    requires Valid(s) && i <= |s| && rem >= 0
    requires forall j :: 0 <= j < i ==> s[j].Some?
    ensures var (r, left) := FillEmpty(s, t, rem, i);
      Valid(r) && OnlyTouches(s, r, t) && 0 <= left <= rem &&
      Count(r, t) == Count(s, t) + (rem - left) &&
      rem - left <= Total(s, t, NullRoom) &&
      (left > 0 ==> rem - left == Total(s, t, NullRoom))
    decreases |s| - i
  {
    if i == |s| || rem <= 0 {
      TotalNonNegative(s, t, NullRoom);
      if i == |s| {
        TotalZero(s, t, NullRoom);
      }
    } else if s[i].None? {
      var add := Min(STACK_LIMIT, rem);
      var v := Some(Item(t, add));
      var s1 := s[i := v];
      TotalUpdate(s, i, v, t, Held);
      TotalUpdate(s, i, v, t, NullRoom);
      FillEmptySpec(s1, t, rem - add, i + 1);
    } else {
      FillEmptySpec(s, t, rem, i + 1);
    }
  }

  /** `addItem(t, c)` with c > 0: no stack passes 64, the count of `t` rises
      by c or by the free capacity, whichever is smaller (the excess is
      discarded), and only `t` stacks and empty slots change. */
  lemma AddedSpec(s: seq<Slot>, t: string, c: int)
    requires Valid(s) && c > 0
    ensures Valid(Added(s, t, c))
    ensures Count(Added(s, t, c), t) == Count(s, t) + Min(c, FreeCapacity(s, t))
    ensures OnlyTouches(s, Added(s, t, c), t)
    ensures forall u :: u != t ==> Count(Added(s, t, c), u) == Count(s, u)
  {
    var (s1, r1) := FillStacks(s, t, c, 0);
    FillStacksShape(s, t, c, 0);
    FillStacksSpec(s, t, c, 0);
    var (s2, r2) := FillEmpty(s1, t, r1, 0);
    FillEmptySpec(s1, t, r1, 0);
    TotalAllNonNegative(s1, t);
    forall u | u != t
      ensures Count(s2, u) == Count(s, u)
    {
      assert forall j :: 0 <= j < |s| ==> Part(s2[j], u, Held) == Part(s[j], u, Held);
      TotalSame(s2, s, u, Held);
    }
  }

  /** `addItem(t, c)` with c <= 0: the first loop stops after slot 0 and the
      second does not start, so slot 0 alone can change. */
  lemma AddedNonPositive(s: seq<Slot>, t: string, c: int)
    requires |s| == INVENTORY_SIZE && c <= 0
    ensures var r := Added(s, t, c);
      |r| == |s| && (forall i :: 1 <= i < |s| ==> r[i] == s[i]) &&
      r[0] == if s[0].Some? && s[0].value.kind == t && s[0].value.count < STACK_LIMIT
              then Some(Item(t, s[0].value.count + c)) else s[0]
  {
  }

  /** Spending one plywood with `addItem('plywood', -1)` while the plywood
      sits in slot 1 leaves the inventory as it was. */
  lemma FreeConsumption()
    ensures var s := [None, Some(Item("plywood", 5))] + EmptySlots(34);
      Added(s, "plywood", -1) == s && Count(s, "plywood") == 5
  {
    var s := [None, Some(Item("plywood", 5))] + EmptySlots(34);
    AddedNonPositive(s, "plywood", -1);
    assert Added(s, "plywood", -1) == s;
    assert s[..2] == [None, Some(Item("plywood", 5))];
    TotalZero(s[2..], "plywood", Held);
    TotalSplit(s, 2, "plywood", Held);
    var p := s[..2];
    assert p == [None, Some(Item("plywood", 5))];
    assert p[..1] == [None];
    assert p[..1][..0] == [];
    assert Total(p[..1], "plywood", Held) == 0;
    assert Total(p, "plywood", Held) == 5;
  }

  /** A total splits at any index. */
  lemma {:induction false} TotalSplit(s: seq<Slot>, k: nat, t: string, m: Measure)
    requires k <= |s|
    ensures Total(s, t, m) == Total(s[..k], t, m) + Total(s[k..], t, m)
    decreases |s|
  {
    if k < |s| {
      var n := |s| - 1;
      assert s[..n][..k] == s[..k];
      assert s[k..][..|s[k..]| - 1] == s[..n][k..];
      TotalSplit(s[..n], k, t, m);
    } else {
      assert s[k..] == [];
      assert s[..k] == s;
    }
  }

  // ---------------------------------------------------------------------
  // removeItem

  /** The loop of `removeItem` over slots n-1 down to 0: a larger stack is
      reduced, a smaller one emptied, until nothing remains. */
  function TakeFrom(s: seq<Slot>, t: string, rem: int, n: nat): (seq<Slot>, int)
    requires n <= |s|
    decreases n
  {
    if n == 0 then (s, rem)
    else
      var i := n - 1;
      var slot := s[i];
      var (s1, r1) :=
        if slot.Some? && slot.value.kind == t then
          if slot.value.count > rem then (s[i := Some(Item(t, slot.value.count - rem))], 0)
          else (s[i := None], rem - slot.value.count)
        else (s, rem);
      if r1 <= 0 then (s1, r1) else TakeFrom(s1, t, r1, n - 1)
  }

  /** `removeItem(t, c)` on a slot list of the right length. */
  function Removed(s: seq<Slot>, t: string, c: int): seq<Slot>
  {
    TakeFrom(s, t, c, |s|).0
  }

  /** Slot i of r is slot i of s, or s held a `t` stack there that r
      empties or reduces to a positive count. */
  predicate OnlyDrains(s: seq<Slot>, r: seq<Slot>, t: string)
  {
    |r| == |s| &&
    forall i :: 0 <= i < |s| ==>
      r[i] == s[i] ||
      (s[i].Some? && s[i].value.kind == t &&
       (r[i].None? || (r[i].value.kind == t && 1 <= r[i].value.count < s[i].value.count)))
  }

  lemma DrainsTrans(a: seq<Slot>, b: seq<Slot>, c: seq<Slot>, t: string)
    requires OnlyDrains(a, b, t) && OnlyDrains(b, c, t)
    ensures OnlyDrains(a, c, t)
  {
  }

  /** What the loop of `removeItem` may do to the slots. */
  lemma {:induction false} TakeFromShape(s: seq<Slot>, t: string, rem: int, n: nat)
    requires n <= |s| && rem >= 0 && NonNegative(s)
    ensures var (r, left) := TakeFrom(s, t, rem, n);
      OnlyDrains(s, r, t) && NonNegative(r) && 0 <= left <= rem
    decreases n
  {
    if n > 0 {
      var i := n - 1;
      var slot := s[i];
      if slot.Some? && slot.value.kind == t {
        var v: Slot := if slot.value.count > rem then Some(Item(t, slot.value.count - rem)) else None;
        var r1 := if slot.value.count > rem then 0 else rem - slot.value.count;
        assert OnlyDrains(s, s[i := v], t);
        if r1 > 0 {
          TakeFromShape(s[i := v], t, r1, n - 1);
          DrainsTrans(s, s[i := v], TakeFrom(s[i := v], t, r1, n - 1).0, t);
        }
      } else if rem > 0 {
        TakeFromShape(s, t, rem, n - 1);
      }
    }
  }

  /** How much the loop of `removeItem` takes. */
  lemma {:induction false} TakeFromSpec(s: seq<Slot>, t: string, rem: int, n: nat)
    requires n <= |s| && rem >= 0 && NonNegative(s)
    requires forall j :: n <= j < |s| ==> Part(s[j], t, Held) == 0
    ensures var (r, left) := TakeFrom(s, t, rem, n);
      Count(r, t) == Count(s, t) - (rem - left) &&
      (left > 0 ==> Count(r, t) == 0)
    decreases n
  {
    if n == 0 {
      TotalZero(s, t, Held);
    } else {
      var i := n - 1;
      var slot := s[i];
      if slot.Some? && slot.value.kind == t {
        var v: Slot := if slot.value.count > rem then Some(Item(t, slot.value.count - rem)) else None;
        var r1 := if slot.value.count > rem then 0 else rem - slot.value.count;
        TotalUpdate(s, i, v, t, Held);
        if r1 > 0 {
          TakeFromSpec(s[i := v], t, r1, n - 1);
        }
      } else if rem > 0 {
        TakeFromSpec(s, t, rem, n - 1);
      }
    }
  }

  /** `removeItem(t, c)` with c >= 0: the count of `t` falls by c or by all
      there is, emptied stacks become null, and only `t` stacks change. */
  lemma RemovedSpec(s: seq<Slot>, t: string, c: int)
    requires NonNegative(s) && c >= 0
    ensures var r := Removed(s, t, c);
      OnlyDrains(s, r, t) &&
      Count(r, t) == Count(s, t) - Min(c, Count(s, t)) &&
      (forall u :: u != t ==> Count(r, u) == Count(s, u)) &&
      (Valid(s) ==> Valid(r))
  {
    var (r, left) := TakeFrom(s, t, c, |s|);
    TakeFromShape(s, t, c, |s|);
    TakeFromSpec(s, t, c, |s|);
    TotalNonNegative(r, t, Held);
    forall u | u != t
      ensures Count(r, u) == Count(s, u)
    {
      assert forall j :: 0 <= j < |s| ==> Part(r[j], u, Held) == Part(s[j], u, Held);
      TotalSame(r, s, u, Held);
    }
  }

  /** The evident intent of `addItem(t, -1)`: spend one item wherever it is. */
  function Consumed(s: seq<Slot>, t: string): seq<Slot>
  {
    Removed(s, t, 1)
  }

  /** Spending one held item lowers its count by exactly one. */
  lemma ConsumedSpec(s: seq<Slot>, t: string)
    requires Valid(s) && Count(s, t) >= 1
    ensures Count(Consumed(s, t), t) == Count(s, t) - 1
    ensures Valid(Consumed(s, t))
  {
    RemovedSpec(s, t, 1);
  }

  // ---------------------------------------------------------------------
  // Drag and drop, equipment

  /** `handleMouseUp` on slots src and tgt: onto a stack of the same type the
      items merge up to 64 with the rest left behind, otherwise the two
      slots swap. */
  function Dropped(s: seq<Slot>, src: nat, tgt: nat): seq<Slot>
    requires src < |s| && tgt < |s|
  {
    if tgt == src || s[src].None? then s
    else
      var a := s[src].value;
      if s[tgt].Some? && s[tgt].value.kind == a.kind then
        var total := s[tgt].value.count + a.count;
        if total <= STACK_LIMIT then s[tgt := Some(Item(a.kind, total))][src := None]
        else s[tgt := Some(Item(a.kind, STACK_LIMIT))][src := Some(Item(a.kind, total - STACK_LIMIT))]
      else s[src := s[tgt]][tgt := s[src]]
  }

  /** Drag and drop keeps the count of every item and the stack limits. */
  lemma DroppedSpec(s: seq<Slot>, src: nat, tgt: nat, u: string)
    requires src < |s| && tgt < |s|
    ensures Count(Dropped(s, src, tgt), u) == Count(s, u)
    ensures Valid(s) ==> Valid(Dropped(s, src, tgt))
  {
    if tgt != src && s[src].Some? {
      var a := s[src].value;
      if s[tgt].Some? && s[tgt].value.kind == a.kind {
        var total := s[tgt].value.count + a.count;
        var v1 := Some(Item(a.kind, if total <= STACK_LIMIT then total else STACK_LIMIT));
        var v2: Slot := if total <= STACK_LIMIT then None else Some(Item(a.kind, total - STACK_LIMIT));
        TotalUpdate(s, tgt, v1, u, Held);
        TotalUpdate(s[tgt := v1], src, v2, u, Held);
      } else {
        TotalUpdate(s, src, s[tgt], u, Held);
        TotalUpdate(s[src := s[tgt]], tgt, s[src], u, Held);
      }
    }
  }

  datatype BodyPart = Head | Body | Legs

  /** `s.includes(sub)`. */
  predicate Contains(s: string, sub: string)
    decreases |s|
  {
    |sub| <= |s| && (s[..|sub|] == sub || Contains(s[1..], sub))
  }

  /** The armour slot an item goes to, by the words in its name: 'head' or
      'helm', else 'body' or 'chest', else 'legs'. */
  function ArmorPart(kind: string): Option<BodyPart>
  {
    if Contains(kind, "head") || Contains(kind, "helm") then Some(Head)
    else if Contains(kind, "body") || Contains(kind, "chest") then Some(Body)
    else if Contains(kind, "legs") then Some(Legs)
    else None
  }

  function Worn(e: Equipment, p: BodyPart): Option<string>
  {
    match p
    case Head => e.head
    case Body => e.body
    case Legs => e.legs
  }

  function Wear(e: Equipment, p: BodyPart, v: Option<string>): (r: Equipment)
    ensures Worn(r, p) == v
    ensures forall q :: q != p ==> Worn(r, q) == Worn(e, q)
  {
    match p
    case Head => e.(head := v)
    case Body => e.(body := v)
    case Legs => e.(legs := v)
  }

  /** How many `u` items the equipment holds; an empty string worn is no
      piece, since every reader of the equipment tests it for truthiness. */
  function WornCount(e: Equipment, u: string): int
  {
    if u == "" then 0
    else (if e.head == Some(u) then 1 else 0) + (if e.body == Some(u) then 1 else 0) + (if e.legs == Some(u) then 1 else 0)
  }

  /** `u` items held in the slots and worn. */
  function Owned(s: seq<Slot>, e: Equipment, u: string): int
  {
    Count(s, u) + WornCount(e, u)
  }

  lemma WornCountWear(e: Equipment, p: BodyPart, v: Option<string>, u: string)
    ensures WornCount(Wear(e, p, v), u) ==
      WornCount(e, u) - (if Worn(e, p) == Some(u) && u != "" then 1 else 0) + (if v == Some(u) && u != "" then 1 else 0)
  {
  }

  /** The first empty slot, or |s|. */
  function FirstEmpty(s: seq<Slot>): (i: nat)
    ensures i <= |s|
    ensures i < |s| ==> s[i].None?
    ensures forall j :: 0 <= j < i ==> s[j].Some?
  {
    if s == [] then 0 else if s[0].None? then 0 else 1 + FirstEmpty(s[1..])
  }

  /** `equipArmor(item, slotIndex)` on the slots and equipment: the slot
      receives the piece worn before, or null when none or an empty string
      is worn. */
  function Equipped(s: seq<Slot>, e: Equipment, item: Item, i: nat): (seq<Slot>, Equipment)
    requires i < |s|
  {
    var part := ArmorPart(item.kind);
    if part.None? then (s, e)
    else
      var current := Worn(e, part.value);
      (s[i := if current.Some? && current.value != "" then Some(Item(current.value, 1)) else None], Wear(e, part.value, Some(item.kind)))
  }

  /** Equipping a piece from a single-item slot keeps every item. */
  lemma EquippedKeepsSingle(s: seq<Slot>, e: Equipment, i: nat, u: string)
    requires i < |s| && s[i].Some? && s[i].value.count == 1
    ensures var (s', e') := Equipped(s, e, s[i].value, i); Owned(s', e', u) == Owned(s, e, u)
  {
    var item := s[i].value;
    var part := ArmorPart(item.kind);
    if part.Some? {
      var current := Worn(e, part.value);
      var v: Slot := if current.Some? && current.value != "" then Some(Item(current.value, 1)) else None;
      TotalUpdate(s, i, v, u, Held);
      WornCountWear(e, part.value, Some(item.kind), u);
    }
  }

  /** Equipping from a stack of two helmets keeps one of them: the other is lost. */
  lemma EquipStackLoses()
    ensures var s := [Some(Item("iron_helm", 2))] + EmptySlots(35);
      var (s', e') := Equipped(s, NO_EQUIPMENT, Item("iron_helm", 2), 0);
      Owned(s', e', "iron_helm") == Owned(s, NO_EQUIPMENT, "iron_helm") - 1
  {
    var s := [Some(Item("iron_helm", 2))] + EmptySlots(35);
    assert ArmorPart("iron_helm") == Some(Head) by {
      assert "iron_helm"[5..][..4] == "helm";
      assert Contains("iron_helm"[5..], "helm");
      assert "iron_helm"[4..][1..] == "iron_helm"[5..];
      assert "iron_helm"[3..][1..] == "iron_helm"[4..];
      assert "iron_helm"[2..][1..] == "iron_helm"[3..];
      assert "iron_helm"[1..][1..] == "iron_helm"[2..];
    }
    var v: Slot := None;
    TotalUpdate(s, 0, v, "iron_helm", Held);
    assert Count(s, "iron_helm") == 2 by {
      TotalSplit(s, 1, "iron_helm", Held);
      TotalZero(s[1..], "iron_helm", Held);
      assert s[..1] == [Some(Item("iron_helm", 2))];
      assert s[..1][..0] == [];
    }
  }

  /** Equipping one piece out of a stack: the rest stays in the slot, and a
      piece worn before goes to the first empty slot; without one nothing
      happens. */
  function EquippedOne(s: seq<Slot>, e: Equipment, i: nat): (seq<Slot>, Equipment)
    requires i < |s| && s[i].Some?
  {
    var item := s[i].value;
    var part := ArmorPart(item.kind);
    if part.None? || item.count <= 1 then Equipped(s, e, item, i)
    else
      var current := Worn(e, part.value);
      var rest := s[i := Some(Item(item.kind, item.count - 1))];
      if current.None? || current.value == "" then (rest, Wear(e, part.value, Some(item.kind)))
      else
        var j := FirstEmpty(rest);
        if j == |rest| then (s, e)
        else (rest[j := Some(Item(current.value, 1))], Wear(e, part.value, Some(item.kind)))
  }

  /** With the correction every item is kept, whatever the stack size. */
  lemma EquippedOneKeeps(s: seq<Slot>, e: Equipment, i: nat, u: string)
    requires i < |s| && s[i].Some? && s[i].value.count >= 1
    ensures var (s', e') := EquippedOne(s, e, i); Owned(s', e', u) == Owned(s, e, u)
  {
    var item := s[i].value;
    var part := ArmorPart(item.kind);
    if part.None? || item.count <= 1 {
      if part.Some? {
        EquippedKeepsSingle(s, e, i, u);
      }
    } else {
      var current := Worn(e, part.value);
      var v := Some(Item(item.kind, item.count - 1));
      var rest := s[i := v];
      TotalUpdate(s, i, v, u, Held);
      WornCountWear(e, part.value, Some(item.kind), u);
      if current.Some? && current.value != "" {
        var j := FirstEmpty(rest);
        if j < |rest| {
          TotalUpdate(rest, j, Some(Item(current.value, 1)), u, Held);
        }
      }
    }
  }

  // ---------------------------------------------------------------------
  // Crafting and unequipping as functions

  /** `removeItem` for each cost in turn. */
  function RemovedAll(s: seq<Slot>, costs: seq<Item>): seq<Slot>
  {
    if costs == [] then s
    else
      var last := costs[|costs| - 1];
      Removed(RemovedAll(s, costs[..|costs| - 1]), last.kind, last.count)
  }

  /** The per-cost checks of `tryCraft`. */
  predicate Affordable(s: seq<Slot>, costs: seq<Item>)
  {
    forall k :: 0 <= k < |costs| ==> Count(s, costs[k].kind) >= costs[k].count
  }

  /** `tryCraft(recipe)`: a workbench recipe needs the workbench open, every
      cost must be held; then the costs are removed and the output added. */
  function Crafted(s: seq<Slot>, r: Recipe, workbenchActive: bool): seq<Slot>
  {
    if r.station == AtWorkbench && !workbenchActive then s
    else
      var n := Normalized(s);
      if !Affordable(n, r.cost) then n
      else Added(RemovedAll(n, r.cost), r.output.kind, r.output.count)
  }

  predicate NamesCost(costs: seq<Item>, u: string)
  {
    exists k :: 0 <= k < |costs| && costs[k].kind == u
  }

  /** With distinct, positive and affordable costs every cost is removed in
      full and nothing else changes. */
  lemma {:induction false} RemovedAllSpec(s: seq<Slot>, costs: seq<Item>)
    requires Valid(s) && Affordable(s, costs)
    requires forall k :: 0 <= k < |costs| ==> costs[k].count > 0
    requires forall j, k :: 0 <= j < k < |costs| ==> costs[j].kind != costs[k].kind
    ensures Valid(RemovedAll(s, costs))
    ensures forall k :: 0 <= k < |costs| ==>
      Count(RemovedAll(s, costs), costs[k].kind) == Count(s, costs[k].kind) - costs[k].count
    ensures forall u :: !NamesCost(costs, u) ==> Count(RemovedAll(s, costs), u) == Count(s, u)
    decreases |costs|
  {
    if costs != [] {
      var n := |costs| - 1;
      var init := costs[..n];
      var last := costs[n];
      PrefixCosts(s, costs);
      RemovedAllSpec(s, init);
      var p := RemovedAll(s, init);
      LastNotInPrefix(costs);
      assert Count(p, last.kind) == Count(s, last.kind);
      RemovedSpec(p, last.kind, last.count);
      assert RemovedAll(s, costs) == Removed(p, last.kind, last.count);
      forall u | !NamesCost(costs, u)
        ensures Count(RemovedAll(s, costs), u) == Count(s, u)
      {
        assert u != last.kind;
        NotNamedInPrefix(costs, u);
      }
      forall k | 0 <= k < |costs|
        ensures Count(RemovedAll(s, costs), costs[k].kind) == Count(s, costs[k].kind) - costs[k].count
      {
        if k < n {
          assert init[k] == costs[k];
          assert costs[k].kind != last.kind;
        }
      }
    }
  }

  lemma PrefixCosts(s: seq<Slot>, costs: seq<Item>)
    requires costs != [] && Affordable(s, costs)
    requires forall k :: 0 <= k < |costs| ==> costs[k].count > 0
    requires forall j, k :: 0 <= j < k < |costs| ==> costs[j].kind != costs[k].kind
    ensures var init := costs[..|costs| - 1];
      Affordable(s, init) &&
      (forall k :: 0 <= k < |init| ==> init[k].count > 0) &&
      (forall j, k :: 0 <= j < k < |init| ==> init[j].kind != init[k].kind)
  {
    var init := costs[..|costs| - 1];
    assert forall k :: 0 <= k < |init| ==> init[k] == costs[k];
  }

  lemma LastNotInPrefix(costs: seq<Item>)
    requires costs != []
    requires forall j, k :: 0 <= j < k < |costs| ==> costs[j].kind != costs[k].kind
    ensures !NamesCost(costs[..|costs| - 1], costs[|costs| - 1].kind)
  {
  }

  lemma NotNamedInPrefix(costs: seq<Item>, u: string)
    requires costs != [] && !NamesCost(costs, u)
    ensures !NamesCost(costs[..|costs| - 1], u)
  {
  }

  /** A successful craft removes every cost exactly, adds as much of the
      output as fits, and leaves every other item alone. */
  lemma CraftedSpec(s: seq<Slot>, r: Recipe, workbenchActive: bool)
    requires Valid(s) && WellFormed(r)
    requires r.station == Anywhere || workbenchActive
    requires Affordable(s, r.cost)
    ensures var s' := Crafted(s, r, workbenchActive);
      Valid(s') &&
      (forall k :: 0 <= k < |r.cost| ==> Count(s', r.cost[k].kind) == Count(s, r.cost[k].kind) - r.cost[k].count) &&
      Count(s', r.output.kind) ==
        Count(s, r.output.kind) + Min(r.output.count, FreeCapacity(RemovedAll(s, r.cost), r.output.kind)) &&
      (forall u :: u != r.output.kind && !NamesCost(r.cost, u) ==> Count(s', u) == Count(s, u))
  {
    RemovedAllSpec(s, r.cost);
    var p := RemovedAll(s, r.cost);
    AddedSpec(p, r.output.kind, r.output.count);
    assert !NamesCost(r.cost, r.output.kind);
  }

  /** Without the workbench, or short of any cost, crafting changes nothing
      beyond the length repair. */
  lemma CraftRefused(s: seq<Slot>, r: Recipe, workbenchActive: bool)
    requires (r.station == AtWorkbench && !workbenchActive) || !Affordable(Normalized(s), r.cost)
    ensures Crafted(s, r, workbenchActive) == s || Crafted(s, r, workbenchActive) == Normalized(s)
  {
  }

  /** Every recipe of the table crafts exactly. */
  lemma TableCrafts(s: seq<Slot>, i: nat, workbenchActive: bool)
    requires Valid(s) && i < |RECIPES| && Affordable(s, RECIPES[i].cost)
    requires RECIPES[i].station == Anywhere || workbenchActive
    ensures var r := RECIPES[i]; var s' := Crafted(s, r, workbenchActive);
      Valid(s') &&
      forall k :: 0 <= k < |r.cost| ==> Count(s', r.cost[k].kind) == Count(s, r.cost[k].kind) - r.cost[k].count
  {
    TableWellFormed();
    CraftedSpec(s, RECIPES[i], workbenchActive);
  }

  /** `unequipArmor(part)`: the piece goes to the first empty slot and the
      part is cleared; nothing happens without an empty slot. */
  function Unequipped(s: seq<Slot>, e: Equipment, p: BodyPart): (seq<Slot>, Equipment)
  {
    var armor := Worn(e, p);
    if armor.None? || armor.value == "" then (s, e)
    else
      var n := Normalized(s);
      var j := FirstEmpty(n);
      if j == |n| then (n, e) else (n[j := Some(Item(armor.value, 1))], Wear(e, p, None))
  }

  lemma UnequippedSpec(s: seq<Slot>, e: Equipment, p: BodyPart, u: string)
    requires |s| == INVENTORY_SIZE
    ensures var (s', e') := Unequipped(s, e, p);
      Owned(s', e', u) == Owned(s, e, u) &&
      (FirstEmpty(s) == |s| ==> s' == s && e' == e) &&
      (FirstEmpty(s) < |s| && Worn(e, p).Some? && Worn(e, p).value != "" ==>
         Worn(e', p).None? && s' == s[FirstEmpty(s) := Some(Item(Worn(e, p).value, 1))])
  {
    var armor := Worn(e, p);
    if armor.Some? && armor.value != "" {
      var j := FirstEmpty(s);
      if j < |s| {
        TotalUpdate(s, j, Some(Item(armor.value, 1)), u, Held);
        WornCountWear(e, p, None, u);
      }
    }
  }

  /** JavaScript's `a % n` for n > 0: the sign follows the dividend. */
  function JsRem(a: int, n: int): int
    requires n > 0
  {
    if a >= 0 then a % n else -((-a) % n)
  }

  /** Q and E step the selection by one, wrapping within the hotbar. */
  lemma CycleStaysOnHotbar(sel: int, direction: int)
    requires 0 <= sel < HOTBAR_SIZE && (direction == 1 || direction == -1)
    ensures 0 <= JsRem(sel + direction + HOTBAR_SIZE, HOTBAR_SIZE) < HOTBAR_SIZE
    ensures direction == 1 ==> JsRem(sel + direction + HOTBAR_SIZE, HOTBAR_SIZE) == if sel == 8 then 0 else sel + 1
    ensures direction == -1 ==> JsRem(sel + direction + HOTBAR_SIZE, HOTBAR_SIZE) == if sel == 0 then 8 else sel - 1
  {
  }

  // ---------------------------------------------------------------------
  // The inventory state

  class Bag {
    /** `me.inventory` of the local player. */
    var slots: seq<Slot>
    var equipment: Equipment
    var selected: int
    var workbenchActive: bool
    var inventoryOpen: bool
    var dragging: bool
    var dragSource: Option<int>

    constructor (inventory: seq<Slot>, e: Equipment)
      ensures slots == inventory && equipment == e && selected == 0
      ensures !workbenchActive && !inventoryOpen && !dragging && dragSource.None?
    {
      slots, equipment := inventory, e;
      selected := 0;
      workbenchActive, inventoryOpen, dragging, dragSource := false, false, false, None;
    }

    /** `getInventory()`: exactly 36 slots, repaired if need be. */
    method GetInventory() returns (inv: seq<Slot>)
      modifies this
      ensures slots == Normalized(old(slots)) && inv == slots && |inv| == INVENTORY_SIZE
      ensures equipment == old(equipment) && selected == old(selected) && workbenchActive == old(workbenchActive)
      ensures inventoryOpen == old(inventoryOpen) && dragging == old(dragging) && dragSource == old(dragSource)
    {
      if |slots| != INVENTORY_SIZE {
        slots := EMPTY_INVENTORY;
      }
      inv := slots;
    }

    method ResetInventory()
      modifies this
      ensures slots == EMPTY_INVENTORY && Valid(slots)
      ensures equipment == old(equipment) && selected == old(selected) && workbenchActive == old(workbenchActive)
      ensures inventoryOpen == old(inventoryOpen) && dragging == old(dragging) && dragSource == old(dragSource)
    {
      slots := EMPTY_INVENTORY;
    }

    /** `getSelectedItem()`: null when the selection is off the list. */
    method SelectedItem() returns (item: Slot)
      modifies this
      ensures slots == Normalized(old(slots))
      ensures item == if 0 <= selected < INVENTORY_SIZE then slots[selected] else None
      ensures equipment == old(equipment) && selected == old(selected) && workbenchActive == old(workbenchActive)
      ensures inventoryOpen == old(inventoryOpen) && dragging == old(dragging) && dragSource == old(dragSource)
    {
      var inv := GetInventory();
      item := if 0 <= selected < |inv| then inv[selected] else None;
    }

    /** `countItem(t)`. */
    method CountItem(t: string) returns (n: int)
      modifies this
      ensures slots == Normalized(old(slots)) && n == Count(slots, t)
      ensures equipment == old(equipment) && selected == old(selected) && workbenchActive == old(workbenchActive)
      ensures inventoryOpen == old(inventoryOpen) && dragging == old(dragging) && dragSource == old(dragSource)
    {
      var inv := GetInventory();
      n := Count(inv, t);
    }

    /** `addItem(t, c)`: the two loops over the slots. */
    method AddItem(t: string, c: int)
      modifies this
      ensures slots == Added(Normalized(old(slots)), t, c)
      ensures equipment == old(equipment) && selected == old(selected) && workbenchActive == old(workbenchActive)
      ensures inventoryOpen == old(inventoryOpen) && dragging == old(dragging) && dragSource == old(dragSource)
    {
      var inv := GetInventory();
      ghost var inv0 := inv;
      var remaining := c;
      var i := 0;
      while i < |inv|
        invariant 0 <= i <= INVENTORY_SIZE && |inv| == INVENTORY_SIZE
        invariant FillStacks(inv, t, remaining, i) == FillStacks(inv0, t, c, 0)
      {
        var slot := inv[i];
        if slot.Some? && slot.value.kind == t && slot.value.count < STACK_LIMIT {
          var add := Min(STACK_LIMIT - slot.value.count, remaining);
          inv := inv[i := Some(Item(t, slot.value.count + add))];
          remaining := remaining - add;
        }
        if remaining <= 0 {
          break;
        }
        i := i + 1;
      }
      ghost var filled := inv;
      ghost var left := remaining;
      i := 0;
      while i < |inv|
        invariant 0 <= i <= INVENTORY_SIZE && |inv| == INVENTORY_SIZE
        invariant FillEmpty(inv, t, remaining, i) == FillEmpty(filled, t, left, 0)
      {
        if remaining <= 0 {
          break;
        }
        if inv[i].None? {
          var add := Min(STACK_LIMIT, remaining);
          inv := inv[i := Some(Item(t, add))];
          remaining := remaining - add;
        }
        i := i + 1;
      }
      slots := inv;
    }

    /** `removeItem(t, c)`: the loop from slot 35 down. */
    method RemoveItem(t: string, c: int)
      modifies this
      ensures slots == Removed(Normalized(old(slots)), t, c)
      ensures equipment == old(equipment) && selected == old(selected) && workbenchActive == old(workbenchActive)
      ensures inventoryOpen == old(inventoryOpen) && dragging == old(dragging) && dragSource == old(dragSource)
    {
      var inv := GetInventory();
      slots := TakeFromEnd(inv, t, c);
    }

    /** The loop of `removeItem`, from the last slot down. */
    static method TakeFromEnd(inv: seq<Slot>, t: string, c: int) returns (r: seq<Slot>)
      ensures r == Removed(inv, t, c)
    {
      r := inv;
      var remaining := c;
      var i := |r| - 1;
      while i >= 0
        invariant -1 <= i < |r| && |r| == |inv|
        invariant TakeFrom(r, t, remaining, i + 1) == TakeFrom(inv, t, c, |inv|)
      {
        var slot := r[i];
        if slot.Some? && slot.value.kind == t {
          if slot.value.count > remaining {
            r := r[i := Some(Item(t, slot.value.count - remaining))];
            remaining := 0;
          } else {
            remaining := remaining - slot.value.count;
            r := r[i := None];
          }
        }
        if remaining <= 0 {
          break;
        }
        i := i - 1;
      }
    }

    /** `handleHotbarKey(index)`. */
    method HandleHotbarKey(index: int)
      modifies this
      ensures selected == index
      ensures slots == old(slots) && equipment == old(equipment) && workbenchActive == old(workbenchActive)
      ensures inventoryOpen == old(inventoryOpen) && dragging == old(dragging) && dragSource == old(dragSource)
    {
      selected := index;
    }

    /** `cycleHotbar(direction)`. */
    method CycleHotbar(direction: int)
      modifies this
      ensures selected == JsRem(old(selected) + direction + HOTBAR_SIZE, HOTBAR_SIZE)
      ensures slots == old(slots) && equipment == old(equipment) && workbenchActive == old(workbenchActive)
      ensures inventoryOpen == old(inventoryOpen) && dragging == old(dragging) && dragSource == old(dragSource)
    {
      var a := selected + direction + HOTBAR_SIZE;
      selected := if a >= 0 then a % HOTBAR_SIZE else -((-a) % HOTBAR_SIZE);
    }

    method SetWorkbenchActive(active: bool)
      modifies this
      ensures workbenchActive == active
      ensures slots == old(slots) && equipment == old(equipment) && selected == old(selected)
      ensures inventoryOpen == old(inventoryOpen) && dragging == old(dragging) && dragSource == old(dragSource)
    {
      workbenchActive := active;
    }

    /** `toggleInventory()`: closing also leaves the workbench and ends a drag. */
    method ToggleInventory()
      modifies this
      ensures inventoryOpen == !old(inventoryOpen)
      ensures workbenchActive == (old(workbenchActive) && inventoryOpen)
      ensures dragging == (old(dragging) && inventoryOpen)
      ensures slots == old(slots) && equipment == old(equipment) && selected == old(selected)
      ensures dragSource == old(dragSource)
    {
      inventoryOpen := !inventoryOpen;
      if !inventoryOpen {
        workbenchActive := false;
        if dragging {
          dragging := false;
        }
      }
    }

    /** `tryCraft(recipe)`. */
    method TryCraft(r: Recipe)
      modifies this
      ensures slots == Crafted(old(slots), r, old(workbenchActive))
      ensures equipment == old(equipment) && selected == old(selected) && workbenchActive == old(workbenchActive)
      ensures inventoryOpen == old(inventoryOpen) && dragging == old(dragging) && dragSource == old(dragSource)
    {
      if r.station == AtWorkbench && !workbenchActive {
        return;
      }
      var ok := CheckCosts(r.cost);
      if !ok {
        return;
      }
      PayCosts(r.cost);
      AddItem(r.output.kind, r.output.count);
    }

    /** The first loop of `tryCraft`: `countItem` for each cost in turn,
        giving up at the first one that is short. */
    method CheckCosts(costs: seq<Item>) returns (ok: bool)
      modifies this
      ensures ok == Affordable(Normalized(old(slots)), costs)
      ensures Normalized(slots) == Normalized(old(slots)) && (costs != [] ==> slots == Normalized(old(slots)))
      ensures equipment == old(equipment) && selected == old(selected) && workbenchActive == old(workbenchActive)
      ensures inventoryOpen == old(inventoryOpen) && dragging == old(dragging) && dragSource == old(dragSource)
    {
      ghost var n := Normalized(slots);
      var j := 0;
      while j < |costs|
        invariant 0 <= j <= |costs|
        invariant Normalized(slots) == n && (j > 0 ==> slots == n)
        invariant forall k :: 0 <= k < j ==> Count(n, costs[k].kind) >= costs[k].count
        invariant equipment == old(equipment) && selected == old(selected) && workbenchActive == old(workbenchActive)
        invariant inventoryOpen == old(inventoryOpen) && dragging == old(dragging) && dragSource == old(dragSource)
      {
        var have := CountItem(costs[j].kind);
        if have < costs[j].count {
          return false;
        }
        j := j + 1;
      }
      return true;
    }

    /** The second loop of `tryCraft`: `removeItem` for each cost. */
    method PayCosts(costs: seq<Item>)
      modifies this
      ensures Normalized(slots) == RemovedAll(Normalized(old(slots)), costs)
      ensures equipment == old(equipment) && selected == old(selected) && workbenchActive == old(workbenchActive)
      ensures inventoryOpen == old(inventoryOpen) && dragging == old(dragging) && dragSource == old(dragSource)
    {
      ghost var n := Normalized(slots);
      var j := 0;
      while j < |costs|
        invariant 0 <= j <= |costs|
        invariant Normalized(slots) == RemovedAll(n, costs[..j])
        invariant equipment == old(equipment) && selected == old(selected) && workbenchActive == old(workbenchActive)
        invariant inventoryOpen == old(inventoryOpen) && dragging == old(dragging) && dragSource == old(dragSource)
      {
        RemovedLength(Normalized(slots), costs[j].kind, costs[j].count);
        RemoveItem(costs[j].kind, costs[j].count);
        assert costs[..j + 1][..j] == costs[..j];
        j := j + 1;
      }
      assert costs[..|costs|] == costs;
    }

    /** `unequipArmor(part)`. */
    method UnequipArmor(part: BodyPart)
      modifies this
      ensures (slots, equipment) == Unequipped(old(slots), old(equipment), part)
      ensures selected == old(selected) && workbenchActive == old(workbenchActive)
      ensures inventoryOpen == old(inventoryOpen) && dragging == old(dragging) && dragSource == old(dragSource)
    {
      var armorType := Worn(equipment, part);
      if armorType.None? || armorType.value == "" {
        return;
      }
      var inv := GetInventory();
      var freeSlot := FirstEmpty(inv);
      if freeSlot < |inv| {
        equipment := Wear(equipment, part, None);
        slots := slots[freeSlot := Some(Item(armorType.value, 1))];
      }
    }

    /** `equipArmor(item, slotIndex)`, as written: the slot is overwritten
        with the piece worn before, or null. */
    method EquipArmor(item: Item, slotIndex: int)
      requires 0 <= slotIndex < INVENTORY_SIZE
      modifies this
      ensures (slots, equipment) ==
        if ArmorPart(item.kind).None? then (old(slots), old(equipment))
        else Equipped(Normalized(old(slots)), old(equipment), item, slotIndex)
      ensures selected == old(selected) && workbenchActive == old(workbenchActive)
      ensures inventoryOpen == old(inventoryOpen) && dragging == old(dragging) && dragSource == old(dragSource)
    {
      var part := ArmorPart(item.kind);
      if part.Some? {
        var inv := GetInventory();
        var currentArmor := Worn(equipment, part.value);
        if currentArmor.Some? && currentArmor.value != "" {
          slots := slots[slotIndex := Some(Item(currentArmor.value, 1))];
        } else {
          slots := slots[slotIndex := None];
        }
        equipment := Wear(equipment, part.value, Some(item.kind));
      }
    }

    /** `onSlotMouseDown(e, index)` for the left button: shift-click equips,
        a plain click starts dragging a non-empty slot. */
    method OnSlotMouseDown(index: int, shift: bool)
      requires 0 <= index < INVENTORY_SIZE
      modifies this
      ensures var n := Normalized(old(slots));
        if n[index].None? then slots == n && equipment == old(equipment) && dragging == old(dragging) && dragSource == old(dragSource)
        else if shift then
          (slots, equipment) == (if ArmorPart(n[index].value.kind).None? then (n, old(equipment))
                                 else Equipped(n, old(equipment), n[index].value, index)) &&
          dragging == old(dragging) && dragSource == old(dragSource)
        else slots == n && equipment == old(equipment) && dragging && dragSource == Some(index)
      ensures selected == old(selected) && workbenchActive == old(workbenchActive) && inventoryOpen == old(inventoryOpen)
    {
      var inv := GetInventory();
      var item := inv[index];
      if item.None? {
        return;
      }
      if shift {
        EquipArmor(item.value, index);
        return;
      }
      dragging := true;
      dragSource := Some(index);
    }

    /** `handleMouseUp(e)`; `target` is the index of the slot under the
        pointer, if any. */
    method MouseUp(target: Option<int>)
      requires target.Some? ==> 0 <= target.value < INVENTORY_SIZE
      requires dragSource.Some? ==> 0 <= dragSource.value < INVENTORY_SIZE
      modifies this
      ensures !old(dragging) ==> slots == old(slots) && dragging == old(dragging) && dragSource == old(dragSource)
      ensures old(dragging) ==>
        !dragging && dragSource.None? &&
        slots == if target.Some? && old(dragSource).Some?
                 then Dropped(Normalized(old(slots)), old(dragSource).value, target.value)
                 else Normalized(old(slots))
      ensures equipment == old(equipment) && selected == old(selected) && workbenchActive == old(workbenchActive)
      ensures inventoryOpen == old(inventoryOpen)
    {
      if !dragging {
        return;
      }
      var inv := GetInventory();
      if target.Some? && dragSource.Some? {
        var targetIndex := target.value;
        var src := dragSource.value;
        if targetIndex != src {
          var srcItem := inv[src];
          var tgtItem := inv[targetIndex];
          if srcItem.Some? {
            if tgtItem.Some? && tgtItem.value.kind == srcItem.value.kind {
              var total := tgtItem.value.count + srcItem.value.count;
              if total <= STACK_LIMIT {
                slots := slots[targetIndex := Some(Item(srcItem.value.kind, total))];
                slots := slots[src := None];
              } else {
                slots := slots[targetIndex := Some(Item(srcItem.value.kind, STACK_LIMIT))];
                slots := slots[src := Some(Item(srcItem.value.kind, total - STACK_LIMIT))];
              }
            } else {
              slots := slots[src := tgtItem];
              slots := slots[targetIndex := srcItem];
            }
          }
        }
      }
      dragging := false;
      dragSource := None;
    }
  }

  lemma RemovedLength(s: seq<Slot>, t: string, c: int)
    requires |s| == INVENTORY_SIZE
    ensures |Removed(s, t, c)| == INVENTORY_SIZE
  {
    TakeFromLength(s, t, c, |s|);
  }

  lemma {:induction false} TakeFromLength(s: seq<Slot>, t: string, rem: int, n: nat)
    requires n <= |s|
    ensures |TakeFrom(s, t, rem, n).0| == |s|
    decreases n
  {
    if n > 0 {
      var i := n - 1;
      var slot := s[i];
      if slot.Some? && slot.value.kind == t {
        if slot.value.count <= rem && rem - slot.value.count > 0 {
          TakeFromLength(s[i := None], t, rem - slot.value.count, n - 1);
        }
      } else if rem > 0 {
        TakeFromLength(s, t, rem, n - 1);
      }
    }
  }
}
