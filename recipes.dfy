/** The build recipes: what each buildable item costs, what kind of object
    it places and which sprite it uses. */
module Recipes {
  import opened Common

  /** A recipe; the cost keeps the order in which the table lists its resources. */
  datatype Recipe = Recipe(cost: seq<(string, int)>, kind: string, asset: string)

  const BUILD_RECIPES: map<string, Recipe> := map[
    "tree" := Recipe([("wood", 5)], "obstacle", "tree"),
    "rock" := Recipe([("stone", 2)], "obstacle", "rock"),
    "path_stone" := Recipe([("stone", 1)], "floor", "path_stone")
  ]

  /** `get_recipe`: the entry of the table, or None for an unknown item. */
  function GetRecipe(itemId: string): (r: Option<Recipe>)
    ensures r.Some? <==> itemId == "tree" || itemId == "rock" || itemId == "path_stone"
    ensures r.Some? ==> r.value.asset == itemId && |r.value.cost| == 1 && r.value.cost[0].1 > 0
    ensures r.Some? ==> (r.value.kind == "floor" <==> itemId == "path_stone")
    ensures r.Some? ==> (r.value.kind == "obstacle" <==> itemId != "path_stone")
  {
    if itemId in BUILD_RECIPES then Some(BUILD_RECIPES[itemId]) else None
  }
}
