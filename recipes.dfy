/**
 * The crafting table (recipes.ts): twelve recipes, each an output stack, a
 * list of cost stacks and an optional station.  The item names used here are
 * the keys of the icon table in constants.ts.
 */
module Recipes {
  import opened Types

  /** `station?: 'workbench'`. */
  datatype Station = Anywhere | AtWorkbench

  datatype Recipe = Recipe(name: string, output: Item, cost: seq<Item>, station: Station)

  const RECIPES: seq<Recipe> := [
    Recipe("Остр. Галька", Item("sharp_pebble", 1), [Item("pebble", 2)], Anywhere),
    Recipe("Рубило", Item("sharp_rock", 1), [Item("rock", 2)], Anywhere),
    Recipe("Веревка", Item("rope", 1), [Item("bark", 3)], Anywhere),
    Recipe("Кам. Топор", Item("stone_axe", 1), [Item("stick", 1), Item("sharp_rock", 1), Item("rope", 1)], Anywhere),
    Recipe("Фанера (Пол)", Item("plywood", 4), [Item("wood", 1)], Anywhere),
    Recipe("Палки (из фан.)", Item("stick", 4), [Item("plywood", 1)], Anywhere),
    Recipe("Стена (Дер.)", Item("wall_item", 1), [Item("plywood", 2), Item("stick", 2)], Anywhere),
    Recipe("Дверь (Дер.)", Item("door_item", 1), [Item("plywood", 4), Item("stick", 2)], Anywhere),
    Recipe("Верстак", Item("workbench", 1), [Item("plywood", 6), Item("stick", 4)], Anywhere),
    Recipe("Шлем (Жел)", Item("iron_helm", 1), [Item("rock", 10), Item("rope", 2)], AtWorkbench),
    Recipe("Нагрудник", Item("iron_chest", 1), [Item("rock", 20), Item("rope", 4)], AtWorkbench),
    Recipe("Поножи", Item("iron_legs", 1), [Item("rock", 15), Item("rope", 3)], AtWorkbench)
  ]

  /** The item names that have an icon (constants.ts), not counting 'default'. */
  const ICON_KEYS: set<string> := {
    "stick", "pebble", "sharp_pebble", "rock", "wood", "bark", "sharp_rock", "rope",
    "stone_axe", "plywood", "wall_item", "door_item", "workbench",
    "iron_helm", "iron_chest", "iron_legs"
  }

  const ARMOR: set<string> := {"iron_helm", "iron_chest", "iron_legs"}

  /** Every count is positive. */
  predicate PositiveCounts(r: Recipe)
  {
    r.output.count > 0 && forall j :: 0 <= j < |r.cost| ==> r.cost[j].count > 0
  }

  /** No cost names the same item twice. */
  predicate DistinctCosts(r: Recipe)
  {
    forall j, k :: 0 <= j < k < |r.cost| ==> r.cost[j].kind != r.cost[k].kind
  }

  /** The output is not among the costs. */
  predicate OutputNotConsumed(r: Recipe)
  {
    forall j :: 0 <= j < |r.cost| ==> r.cost[j].kind != r.output.kind
  }

  /** Every item the recipe names has an icon. */
  predicate HasIcons(r: Recipe)
  {
    r.output.kind in ICON_KEYS && forall j :: 0 <= j < |r.cost| ==> r.cost[j].kind in ICON_KEYS
  }

  /** The shape `tryCraft` relies on: positive counts, each cost once, and
      an output that the costs do not consume. */
  predicate WellFormed(r: Recipe)
  {
    PositiveCounts(r) && DistinctCosts(r) && OutputNotConsumed(r)
  }

  /** Twelve recipes; exactly the three armour pieces need the workbench. */
  lemma TableShape()
    ensures |RECIPES| == 12
    ensures forall i :: 0 <= i < |RECIPES| ==>
      (RECIPES[i].station == AtWorkbench <==> RECIPES[i].output.kind in ARMOR)
  {
  }

  lemma TablePositive()
    ensures forall i :: 0 <= i < |RECIPES| ==> PositiveCounts(RECIPES[i])
  {
  }

  lemma TableDistinct()
    ensures forall i :: 0 <= i < |RECIPES| ==> DistinctCosts(RECIPES[i])
  {
  }

  lemma TableOutputNotConsumed()
    ensures forall i :: 0 <= i < |RECIPES| ==> OutputNotConsumed(RECIPES[i])
  {
  }

  /** Every recipe is well formed. */
  lemma TableWellFormed()
    ensures forall i :: 0 <= i < |RECIPES| ==> WellFormed(RECIPES[i])
  {
    TablePositive();
    TableDistinct();
    TableOutputNotConsumed();
  }

  /** Every item a recipe names has an icon. */
  lemma TableHasIcons()
    ensures forall i :: 0 <= i < |RECIPES| ==> HasIcons(RECIPES[i])
  {
  }
}
