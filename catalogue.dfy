/**
 * The fixed tables of src/main.py: the five recipes, the fifteen ingredients,
 * the screen geometry used to hit-test recipe rows and ingredient tiles, and
 * the rules that keep the list of selected ingredients well formed.
 */
module Catalogue {
  import opened Wrappers
  import opened Geometry

  /** A recipe: its name, the names of the ingredients it needs, and the instructions shown. */
  datatype Recipe = Recipe(name: string, ingredients: seq<string>, instructions: string)

  /** An ingredient tile; the image it loads is not modelled, only the file it names. */
  datatype Ingredient = Ingredient(name: string, imageFile: string)

  const Recipes: seq<Recipe> := [
    Recipe("పులిహోర", ["బియ్యం", "పసుపు", "నిమ్మకాయ", "కారం", "వేరుశెనగ", "ఆవాలు", "కరివేపాకు"],
           "బియ్యం ఉడికించి, నిమ్మకాయ రసం, పసుపు, కారం, వేరుశెనగ, ఆవాలు, కరివేపాకు కలపండి."),
    Recipe("పప్పు", ["కందిపప్పు", "పసుపు", "ఉల్లిపాయలు", "టమాటా", "కారం", "కొత్తిమీర"],
           "కందిపప్పు ఉడికించి, ఉల్లిపాయలు, టమాటా, పసుపు, కారం, కొత్తిమీర కలపండి."),
    Recipe("పెరుగు", ["పెరుగు", "ఉప్పు", "కారం", "కొత్తిమీర"],
           "పెరుగులో ఉప్పు, కారం, కొత్తిమీర కలపండి."),
    Recipe("కొబ్బరి పాయసం", ["బియ్యం", "కొబ్బరి", "పాలు", "పంచదార", "ఏలకులు"],
           "బియ్యం ఉడికించి, కొబ్బరి, పాలు, పంచదార, ఏలకులు కలపండి."),
    Recipe("మిరియాల రసం", ["మిరియాలు", "ఉల్లిపాయలు", "కొత్తిమీర", "ఉప్పు"],
           "మిరియాలు, ఉల్లిపాయలు, కొత్తిమీర, ఉప్పు కలిపి మరిగించండి.")
  ]

  const Ingredients: seq<Ingredient> := [
    Ingredient("బియ్యం", "rice.png"),
    Ingredient("పసుపు", "turmeric.png"),
    Ingredient("నిమ్మకాయ", "lemon.png"),
    Ingredient("కారం", "chili.png"),
    Ingredient("వేరుశెనగ", "peanuts.png"),
    Ingredient("ఆవాలు", "mustard.png"),
    Ingredient("కరివేపాకు", "curry_leaves.png"),
    Ingredient("కందిపప్పు", "dal.png"),
    Ingredient("ఉల్లిపాయలు", "onion.png"),
    Ingredient("టమాటా", "tomato.png"),
    Ingredient("కొత్తిమీర", "coriander.png"),
    Ingredient("పెరుగు", "curd.png"),
    Ingredient("ఉప్పు", "salt.png"),
    Ingredient("కొబ్బరి", "coconut.png"),
    Ingredient("మిరియాలు", "black_pepper.png")
  ]

  /** Every recipe needs at least one ingredient, so an empty selection is never complete. */
  lemma RecipesNeedIngredients(i: nat)
    requires i < |Recipes|
    ensures |Recipes[i].ingredients| > 0
  {
  }

  /** The recipe index whose ingredients are not all on offer. */
  const CoconutPayasam := 3

  // ---------------------------------------------------------------------------
  // Hit geometry

  /** Tile `idx` of the ingredient grid: five per row, 100 pixels apart, 64 pixels square. */
  function IngredientTile(idx: nat): Rect {
    Rect(100 + (idx % 5) * 100, 150 + (idx / 5) * 100, 64, 64)
  }

  /** Row `i` of the recipe list. */
  function RecipeRow(i: nat): Rect {
    Rect(200, 150 + i * 100, 400, 80)
  }

  /** The ingredient whose tile the point hits, computed from the point directly. */
  function TileAt(p: Point): Option<nat> {
    if p.x < 100 || p.y < 150 then None
    else
      var col := (p.x - 100) / 100;
      var row := (p.y - 150) / 100;
      if col < 5 && (p.x - 100) % 100 < 64 && (p.y - 150) % 100 < 64 && row * 5 + col < |Ingredients|
      then Some(row * 5 + col)
      else None
  }

  /** The recipe whose row the point hits, computed from the point directly. */
  function RowAt(p: Point): Option<nat> {
    if 200 <= p.x < 600 && p.y >= 150 && (p.y - 150) % 100 < 80 && (p.y - 150) / 100 < |Recipes|
    then Some((p.y - 150) / 100)
    else None
  }

  /** A point hits tile `k` of the catalogue exactly when TileAt names `k`. */
  lemma TileAtExact(p: Point, k: nat)
    requires k < |Ingredients|
    ensures CollidePoint(IngredientTile(k), p) <==> TileAt(p) == Some(k)
  {
    if CollidePoint(IngredientTile(k), p) {
      HitTileNamed(p, k);
    }
    if TileAt(p) == Some(k) {
      NamedTileHit(p, k);
    }
  }

  lemma HitTileNamed(p: Point, k: nat)
    requires k < |Ingredients| && CollidePoint(IngredientTile(k), p)
    ensures TileAt(p) == Some(k)
  {
    var col, row := k % 5, k / 5;
    assert k == row * 5 + col;
    DivModUnique(p.x - 100, 100, col, p.x - 100 - col * 100);
    DivModUnique(p.y - 150, 100, row, p.y - 150 - row * 100);
  }

  lemma NamedTileHit(p: Point, k: nat)
    requires TileAt(p) == Some(k)
    ensures CollidePoint(IngredientTile(k), p)
  {
    var c, r := (p.x - 100) / 100, (p.y - 150) / 100;
    assert k == r * 5 + c && c < 5;
    DivModUnique(k, 5, r, c);
  }

  /** A point hits row `i` of the recipe list exactly when RowAt names `i`. */
  lemma RowAtExact(p: Point, i: nat)
    requires i < |Recipes|
    ensures CollidePoint(RecipeRow(i), p) <==> RowAt(p) == Some(i)
  {
    if CollidePoint(RecipeRow(i), p) {
      DivModUnique(p.y - 150, 100, i, p.y - 150 - i * 100);
    }
  }

  /** Tiles are pairwise disjoint: one click selects at most one ingredient. */
  lemma TilesDisjoint(p: Point, j: nat, k: nat)
    requires j < |Ingredients| && k < |Ingredients|
    requires CollidePoint(IngredientTile(j), p) && CollidePoint(IngredientTile(k), p)
    ensures j == k
  {
    TileAtExact(p, j);
    TileAtExact(p, k);
  }

  /** Rows are pairwise disjoint: one click picks at most one recipe. */
  lemma RowsDisjoint(p: Point, i: nat, j: nat)
    requires i < |Recipes| && j < |Recipes|
    requires CollidePoint(RecipeRow(i), p) && CollidePoint(RecipeRow(j), p)
    ensures i == j
  {
    RowAtExact(p, i);
    RowAtExact(p, j);
  }

  /** Division by the grid's divisors (5 tiles per row, 100 pixels per cell) has one quotient and remainder. */
  lemma DivModUnique(a: int, d: int, q: int, r: int)
    requires d == 5 || d == 100
    requires a == q * d + r && 0 <= r < d
    ensures a / d == q && a % d == r
  {
    if d == 5 {
      assert a == 5 * (a / 5) + a % 5;
    } else {
      assert a == 100 * (a / 100) + a % 100;
    }
  }

  /** The background chosen when recipe `i` is picked. */
  function BackgroundFor(i: nat): string {
    if i == 0 then "kitchen_background.png"
    else if i == 1 then "traditional_kitchen_background.png"
    else if i == 2 then "modern_kitchen_background.png"
    else if i == 3 then "kitchen_background.png"
    else "traditional_kitchen_background.png"
  }

  // ---------------------------------------------------------------------------
  // Selection

  /** The names of the selected ingredients, as `handle_event`'s list comprehension builds them. */
  function Names(selected: seq<Ingredient>): seq<string> {
    seq(|selected|, k requires 0 <= k < |selected| => selected[k].name)
  }

  /** No name occurs twice. */
  predicate DistinctNames(names: seq<string>) {
    forall j, k :: 0 <= j < k < |names| ==> names[j] != names[k]
  }

  /**
   * What the selection stage keeps true: every selected ingredient is a
   * catalogue entry the recipe needs, and no name is selected twice.
   */
  predicate WellSelected(selected: seq<Ingredient>, recipe: Recipe) {
    (forall k :: 0 <= k < |selected| ==> selected[k] in Ingredients && selected[k].name in recipe.ingredients) &&
    (forall j, k :: 0 <= j < k < |selected| ==> selected[j].name != selected[k].name)
  }

  /** Clicking `ingredient`: appended if the recipe needs it and it is not yet selected. */
  function Choose(selected: seq<Ingredient>, recipe: Recipe, ingredient: Ingredient): (after: seq<Ingredient>)
    requires WellSelected(selected, recipe) && ingredient in Ingredients
    ensures WellSelected(after, recipe)
    ensures after == selected || after == selected + [ingredient]
    ensures after != selected <==> ingredient.name in recipe.ingredients && ingredient.name !in Names(selected)
  {
    if ingredient.name in recipe.ingredients && ingredient.name !in Names(selected)
    then
      assert forall k :: 0 <= k < |selected| ==> Names(selected)[k] == selected[k].name;
      selected + [ingredient]
    else selected
  }

  /** The selection after a mouse-down at `p`, using the closed-form tile lookup. */
  function AfterClick(selected: seq<Ingredient>, recipe: Recipe, p: Point): seq<Ingredient>
    requires WellSelected(selected, recipe)
  {
    match TileAt(p)
    case None => selected
    case Some(k) => Choose(selected, recipe, Ingredients[k])
  }

  /** A duplicate-free list drawn from `allowed` is no longer than `allowed` is large. */
  lemma {:induction false} DistinctWithin(names: seq<string>, allowed: set<string>)
    requires DistinctNames(names)
    requires forall k :: 0 <= k < |names| ==> names[k] in allowed
    ensures |names| <= |allowed|
  {
    if names != [] {
      var last := names[|names| - 1];
      var rest := names[..|names| - 1];
      assert forall k :: 0 <= k < |rest| ==> rest[k] in allowed - {last} by {
        forall k | 0 <= k < |rest| ensures rest[k] in allowed - {last} {
          assert rest[k] == names[k];
        }
      }
      DistinctWithin(rest, allowed - {last});
    }
  }

  /** A selection never holds more ingredients than its recipe lists. */
  lemma SelectionBounded(selected: seq<Ingredient>, recipe: Recipe)
    requires WellSelected(selected, recipe)
    ensures |selected| <= |recipe.ingredients|
  {
    var allowed := set n | n in recipe.ingredients;
    assert DistinctNames(Names(selected));
    DistinctWithin(Names(selected), allowed);
    SetOfSeqBounded(recipe.ingredients);
  }

  /** The set of a sequence's elements is no larger than the sequence. */
  lemma {:induction false} SetOfSeqBounded(s: seq<string>)
    ensures |set n | n in s| <= |s|
  {
    if s != [] {
      var rest := s[1..];
      SetOfSeqBounded(rest);
      assert (set n | n in s) == (set n | n in rest) + {s[0]};
    }
  }

  /**
   * Coconut payasam needs milk, sugar and cardamom, which the catalogue does
   * not offer: only rice and coconut can ever be selected for it, so its
   * selection can never be complete.
   */
  lemma CoconutPayasamIncomplete(selected: seq<Ingredient>)
    requires WellSelected(selected, Recipes[CoconutPayasam])
    ensures |selected| <= 2 < |Recipes[CoconutPayasam].ingredients|
  {
    var offered: set<string> := {"బియ్యం", "కొబ్బరి"};
    forall k | 0 <= k < |selected| ensures Names(selected)[k] in offered {
      var c := selected[k];
      assert c in Ingredients && c.name in Recipes[CoconutPayasam].ingredients;
    }
    assert DistinctNames(Names(selected));
    DistinctWithin(Names(selected), offered);
  }
}
