/**
 * The cooking stage controller of src/main.py (`TeluguCookingGame`): help
 * overlay, menu, recipe picking, ingredient selection and the forward-only
 * select, chop, mix, serve progression that owns the live mini-game.
 */
module Cooking {
  import opened Wrappers
  import opened Geometry
  import opened GameStates
  import opened MiniGames
  import opened Catalogue

  datatype Stage = Select | Chop | Mix | Serve

  /** The position of a stage in the progression. */
  function Rank(s: Stage): nat {
    match s
    case Select => 0
    case Chop => 1
    case Mix => 2
    case Serve => 3
  }

  const ScreenWidth := 800
  const StartButton := Rect(300, 400, 200, 50)
  const NextButton := Rect(600, 500, 150, 50)
  const HelpButton := Rect(700, 550, 80, 30)
  const CloseHelp := Rect(ScreenWidth - 30, 20, 20, 20)

  /** Reward for a served dish. */
  const DishScore := 100

  /**
   * The stage the next button leads to. `ready` is whether the selection is
   * complete (in the select stage) or the live tracker is completed (in the
   * others); the serve stage is never left.
   */
  function Advance(stage: Stage, ready: bool): (next: Stage)
    ensures next == stage <==> !ready || stage == Serve
    ensures next != stage ==> Rank(next) == Rank(stage) + 1
  {
    match stage
    case Select => if ready then Chop else Select
    case Chop => if ready then Mix else Chop
    case Mix => if ready then Serve else Mix
    case Serve => Serve
  }

  /** The controller's `mini_game` field: nothing yet, or one live tracker. */
  datatype MiniGameRef =
    | NoGame
    | ChopGame(chopper: ChoppingGame)
    | MixGame(mixer: MixingGame)
    | ServeGame(server: ServingGame)

  function Objects(g: MiniGameRef): set<object> {
    match g
    case NoGame => {}
    case ChopGame(c) => {c}
    case MixGame(m) => {m}
    case ServeGame(s) => {s}
  }

  ghost predicate GameValid(g: MiniGameRef)
    reads Objects(g)
  {
    (g.ChopGame? ==> g.chopper.Valid()) &&
    (g.MixGame? ==> g.mixer.Valid()) &&
    (g.ServeGame? ==> g.server.Valid())
  }

  /** `self.mini_game and self.mini_game.is_completed()`. */
  predicate GameCompleted(g: MiniGameRef)
    reads Objects(g)
  {
    match g
    case NoGame => false
    case ChopGame(c) => c.completed
    case MixGame(m) => m.completed
    case ServeGame(s) => s.completed
  }

  /** A tracker exactly as its constructor leaves it. */
  ghost predicate FreshlyStarted(g: MiniGameRef)
    reads Objects(g)
  {
    match g
    case NoGame => false
    case ChopGame(c) => c.chopCount == 0 && c.timer == 0 && !c.completed
    case MixGame(m) => m.mixCount == 0 && m.lastPos == None && !m.completed
    case ServeGame(s) => s.foodRect == FoodStart && !s.dragging && !s.served && s.timer == 0 && !s.completed
  }

  /** During chop, mix and serve the live tracker is of the stage's kind. */
  predicate Fits(stage: Stage, g: MiniGameRef) {
    match stage
    case Select => true
    case Chop => g.ChopGame?
    case Mix => g.MixGame?
    case Serve => g.ServeGame?
  }

  /** Everything the controller owns except the help-overlay flag. */
  datatype Progress = Progress(
    mode: string, recipeIndex: nat, selected: seq<Ingredient>, stage: Stage,
    game: MiniGameRef, score: int, background: string)

  /** `self.mini_game.is_completed()` guarded by `self.mini_game`. */
  method IsGameCompleted(g: MiniGameRef) returns (done: bool)
    requires GameValid(g)
    ensures done == GameCompleted(g)
  {
    match g
    case NoGame => done := false;
    case ChopGame(c) => done := c.IsCompleted();
    case MixGame(m) => done := m.IsCompleted();
    case ServeGame(s) => done := s.IsCompleted();
  }

  class TeluguCookingGame {
    const gameState: GameState
    /** The angle function handed to every mixing game. */
    const angleTo: (int, int) -> real
    var currentRecipeIndex: nat
    var currentRecipe: Recipe
    var selectedIngredients: seq<Ingredient>
    var cookingStage: Stage
    var miniGame: MiniGameRef
    var score: int
    var showHelp: bool
    var currentBackground: string

    /**
     * The controller's invariant: a valid mode, the current recipe is the
     * indexed one, the selection is well formed and is incomplete exactly in
     * the select stage, the live tracker fits the stage (a mixing game uses
     * the controller's angle function and turns clockwise), and the score is a
     * whole number of dishes. The chop and mix trackers are never completed
     * between events (the event that completes one replaces it), and while
     * cooking the serve tracker has not served (the event that serves leaves
     * the cooking mode).
     */
    ghost predicate Valid()
      reads this, gameState, Objects(miniGame)
    {
      Selecting() && (cookingStage == Select ==> |selectedIngredients| < |currentRecipe.ingredients|) &&
      (cookingStage == Chop || cookingStage == Mix ==> !GameCompleted(miniGame)) &&
      (gameState.currentState == "cooking" && cookingStage == Serve ==> !miniGame.server.served)
    }

    /**
     * The invariant as it stands between a stage's own handling and the next
     * button: the select stage may then hold a complete selection, and the
     * live tracker may be completed.
     */
    ghost predicate Selecting()
      reads this, gameState, Objects(miniGame)
    {
      gameState.Valid() &&
      currentRecipeIndex < |Recipes| && currentRecipe == Recipes[currentRecipeIndex] &&
      WellSelected(selectedIngredients, currentRecipe) &&
      (cookingStage != Select ==> |selectedIngredients| == |currentRecipe.ingredients|) &&
      GameValid(miniGame) && Fits(cookingStage, miniGame) &&
      (miniGame.MixGame? ==> miniGame.mixer.angleTo == angleTo && miniGame.mixer.mixDirection == Clockwise) &&
      0 <= score && score % DishScore == 0
    }

    /**
     * The event finishes the live tracker: a chop that makes the tenth, a
     * stir that makes the fifteenth, or a release with the food on the plate.
     */
    predicate Finishes(e: Event, held: bool, pointer: Point)
      reads this, Objects(miniGame)
    {
      match cookingStage
      case Select => false
      case Chop =>
        miniGame.ChopGame? && IsChop(e, miniGame.chopper.activeArea) &&
        miniGame.chopper.chopCount + 1 >= RequiredChops
      case Mix =>
        miniGame.MixGame? && miniGame.mixer.Stirs(e, held, pointer) &&
        miniGame.mixer.mixCount + 1 >= RequiredMixes
      case Serve =>
        miniGame.ServeGame? && e.kind == MouseButtonUp && Contains(Plate, miniGame.server.foodRect)
    }

    function ProgressOf(): Progress
      reads this, gameState
    {
      Progress(gameState.currentState, currentRecipeIndex, selectedIngredients, cookingStage,
               miniGame, score, currentBackground)
    }

    constructor (angleTo: (int, int) -> real)
      ensures Valid() && fresh(gameState)
      ensures gameState.currentState == "menu"
      ensures currentRecipeIndex == 0 && selectedIngredients == [] && cookingStage == Select
      ensures miniGame == NoGame && score == 0 && !showHelp
      ensures currentBackground == "kitchen_background.png"
      ensures this.angleTo == angleTo
    {
      gameState := new GameState();
      this.angleTo := angleTo;
      currentBackground := "kitchen_background.png";
      currentRecipeIndex := 0;
      currentRecipe := Recipes[0];
      selectedIngredients := [];
      cookingStage := Select;
      miniGame := NoGame;
      score := 0;
      showHelp := false;
    }

    /** Whether this event is consumed by the help overlay. */
    predicate HelpConsumes(e: Event)
      reads this
    {
      e.kind == MouseButtonDown &&
      (CollidePoint(HelpButton, e.pos) || (showHelp && CollidePoint(CloseHelp, e.pos)))
    }

    /**
     * One input event. `held` and `pointer` are the global mouse state the
     * mixing game reads; `pick` is the outcome of any `random.choice` the
     * event causes.
     */
    method HandleEvent(e: Event, held: bool, pointer: Point, pick: AreaIndex)
      requires Valid()
      modifies this, gameState, Objects(miniGame)
      ensures Valid()
      // the help overlay
      ensures e.kind == MouseButtonDown && CollidePoint(HelpButton, e.pos) ==>
        showHelp && ProgressOf() == old(ProgressOf()) && unchanged(Objects(miniGame))
      ensures e.kind == MouseButtonDown && !CollidePoint(HelpButton, e.pos) &&
              old(showHelp) && CollidePoint(CloseHelp, e.pos) ==>
        !showHelp && ProgressOf() == old(ProgressOf()) && unchanged(Objects(miniGame))
      ensures !old(HelpConsumes(e)) ==> showHelp == old(showHelp)
      // the menu
      ensures !old(HelpConsumes(e)) && old(gameState.currentState) == "menu" ==>
        currentRecipeIndex == old(currentRecipeIndex) && selectedIngredients == old(selectedIngredients) &&
        cookingStage == old(cookingStage) && miniGame == old(miniGame) && score == old(score) &&
        currentBackground == old(currentBackground) &&
        gameState.currentState ==
          (if e.kind == MouseButtonDown && CollidePoint(StartButton, e.pos) then "recipe_selection" else "menu")
      // picking a recipe
      ensures !old(HelpConsumes(e)) && old(gameState.currentState) == "recipe_selection" ==>
        miniGame == old(miniGame) && score == old(score) &&
        if e.kind == MouseButtonDown && RowAt(e.pos).Some? then
          var i := RowAt(e.pos).value;
          currentRecipeIndex == i && gameState.currentState == "cooking" && cookingStage == Select &&
          selectedIngredients == [] && currentBackground == BackgroundFor(i)
        else
          ProgressOf() == old(ProgressOf())
      // any other mode
      ensures !old(HelpConsumes(e)) && old(gameState.currentState) !in {"menu", "recipe_selection", "cooking"} ==>
        ProgressOf() == old(ProgressOf())
      ensures old(gameState.currentState) != "cooking" ==> unchanged(Objects(miniGame))
      // cooking: the stage's own handling, then the next button
      ensures !old(HelpConsumes(e)) && old(gameState.currentState) == "cooking" ==>
        Cooked(old(miniGame), e, held, pointer, pick)
      // the progression
      ensures old(gameState.currentState) == "cooking" ==>
        Rank(old(cookingStage)) <= Rank(cookingStage) <= Rank(old(cookingStage)) + 1
      ensures old(gameState.currentState) != "cooking" && cookingStage != old(cookingStage) ==>
        cookingStage == Select && selectedIngredients == [] && gameState.currentState == "cooking"
      ensures old(gameState.currentState) == "cooking" && cookingStage != old(cookingStage) ==>
        fresh(Objects(miniGame)) && FreshlyStarted(miniGame)
      ensures (old(gameState.currentState) == "cooking" && old(cookingStage) != Select &&
               cookingStage != old(cookingStage)) ==> GameCompleted(old(miniGame))
      ensures cookingStage == old(cookingStage) ==> miniGame == old(miniGame)
      // the score
      ensures score == old(score) || score == old(score) + DishScore
      ensures score != old(score) ==>
        old(gameState.currentState) == "cooking" && old(cookingStage) == Serve &&
        gameState.currentState == "recipe_selection" && cookingStage == Serve &&
        selectedIngredients == old(selectedIngredients)
      ensures currentRecipeIndex == CoconutPayasam ==> cookingStage == Select
    {
      CoconutPayasamStaysInSelect();
      if HelpConsumes(e) {
        HelpEvent(e);
      } else {
        ModeEvent(e, held, pointer, pick);
        CoconutPayasamStaysInSelect();
      }
    }

    /** A click on the help button opens the overlay; one on its close box, when open, shuts it. */
    method HelpEvent(e: Event)
      requires HelpConsumes(e)
      modifies this`showHelp
      ensures showHelp <==> CollidePoint(HelpButton, e.pos)
    {
      if CollidePoint(HelpButton, e.pos) {
        showHelp := true;
      } else {
        showHelp := false;
      }
    }

    /** In the menu, a click on the start button opens the recipe list. */
    method MenuEvent(e: Event)
      requires gameState.Valid() && gameState.currentState == "menu"
      modifies gameState
      ensures gameState.Valid()
      ensures gameState.currentState ==
        (if e.kind == MouseButtonDown && CollidePoint(StartButton, e.pos) then "recipe_selection" else "menu")
    {
      if e.kind == MouseButtonDown {
        if CollidePoint(StartButton, e.pos) {
          gameState.SetState("recipe_selection");
        }
      }
    }

    /** An event the help overlay did not consume, handled by the current mode. */
    method ModeEvent(e: Event, held: bool, pointer: Point, pick: AreaIndex)
      requires Valid()
      modifies this, gameState, Objects(miniGame)
      ensures Valid()
      ensures showHelp == old(showHelp)
      ensures old(gameState.currentState) == "menu" ==>
        currentRecipeIndex == old(currentRecipeIndex) && selectedIngredients == old(selectedIngredients) &&
        cookingStage == old(cookingStage) && miniGame == old(miniGame) && score == old(score) &&
        currentBackground == old(currentBackground) &&
        gameState.currentState ==
          (if e.kind == MouseButtonDown && CollidePoint(StartButton, e.pos) then "recipe_selection" else "menu")
      ensures old(gameState.currentState) == "recipe_selection" ==>
        miniGame == old(miniGame) && score == old(score) &&
        if e.kind == MouseButtonDown && RowAt(e.pos).Some? then
          var i := RowAt(e.pos).value;
          currentRecipeIndex == i && gameState.currentState == "cooking" && cookingStage == Select &&
          selectedIngredients == [] && currentBackground == BackgroundFor(i)
        else
          ProgressOf() == old(ProgressOf())
      ensures old(gameState.currentState) !in {"menu", "recipe_selection", "cooking"} ==>
        ProgressOf() == old(ProgressOf())
      ensures old(gameState.currentState) != "cooking" ==> unchanged(Objects(miniGame))
      ensures old(gameState.currentState) == "cooking" ==> Cooked(old(miniGame), e, held, pointer, pick)
      ensures cookingStage == old(cookingStage) ==> miniGame == old(miniGame)
    {
      if gameState.currentState == "cooking" {
        CookingEvent(e, held, pointer, pick);
      } else {
        BrowseEvent(e);
      }
    }

    /** An event outside the cooking mode: the menu's start button or a recipe row. */
    method BrowseEvent(e: Event)
      requires Valid() && gameState.currentState != "cooking"
      modifies this, gameState
      ensures Valid()
      ensures showHelp == old(showHelp) && miniGame == old(miniGame) && score == old(score)
      ensures old(gameState.currentState) == "menu" ==>
        currentRecipeIndex == old(currentRecipeIndex) && selectedIngredients == old(selectedIngredients) &&
        cookingStage == old(cookingStage) && currentBackground == old(currentBackground) &&
        gameState.currentState ==
          (if e.kind == MouseButtonDown && CollidePoint(StartButton, e.pos) then "recipe_selection" else "menu")
      ensures old(gameState.currentState) == "recipe_selection" ==>
        if e.kind == MouseButtonDown && RowAt(e.pos).Some? then
          var i := RowAt(e.pos).value;
          currentRecipeIndex == i && gameState.currentState == "cooking" && cookingStage == Select &&
          selectedIngredients == [] && currentBackground == BackgroundFor(i)
        else
          ProgressOf() == old(ProgressOf())
      ensures old(gameState.currentState) !in {"menu", "recipe_selection"} ==> ProgressOf() == old(ProgressOf())
    {
      if gameState.currentState == "menu" {
        MenuEvent(e);
      } else if gameState.currentState == "recipe_selection" {
        if e.kind == MouseButtonDown {
          PickRecipe(e.pos);
        }
      }
    }

    /**
     * The effect of one event in the cooking mode: the stage's own handling,
     * then the next button, where `prev` is the tracker live before it. The
     * recipe and background stay. In select the
     * selection follows `AfterClick` and chopping starts exactly when it is
     * complete. In chop, mix and serve the live tracker ends as its own
     * handler leaves it, and the stage advances exactly on the event that
     * finishes it, each step to a fresh tracker. Only serving scores: +100
     * and the recipe list come from a release over the plate or from the next
     * button on a completed tracker.
     */
    twostate predicate Cooked(prev: MiniGameRef, e: Event, held: bool, pointer: Point, pick: AreaIndex)
      requires old(Valid()) && prev == old(miniGame)
      reads this, gameState, Objects(prev), Objects(miniGame)
    {
      currentRecipeIndex == old(currentRecipeIndex) && currentBackground == old(currentBackground) &&
      (old(cookingStage) == Select ==>
        selectedIngredients ==
          (if e.kind == MouseButtonDown then AfterClick(old(selectedIngredients), old(currentRecipe), e.pos)
           else old(selectedIngredients)) &&
        cookingStage == (if |selectedIngredients| == |currentRecipe.ingredients| then Chop else Select)) &&
      (old(cookingStage) != Select ==>
        selectedIngredients == old(selectedIngredients) &&
        cookingStage == Advance(old(cookingStage), old(Finishes(e, held, pointer)))) &&
      (old(cookingStage) == Chop ==> prev.chopper.Handled(e, pick)) &&
      (old(cookingStage) == Mix ==> prev.mixer.Handled(e, held, pointer)) &&
      (old(cookingStage) == Serve ==> prev.server.Handled(e)) &&
      (old(cookingStage) != Serve ==> score == old(score) && gameState.currentState == "cooking") &&
      (old(cookingStage) == Serve ==>
        var done := old(Finishes(e, held, pointer)) ||
          (e.kind == MouseButtonDown && CollidePoint(NextButton, e.pos) && old(GameCompleted(miniGame)));
        score == old(score) + (if done then DishScore else 0) &&
        gameState.currentState == (if done then "recipe_selection" else "cooking")) &&
      (cookingStage != old(cookingStage) ==> fresh(Objects(miniGame)) && FreshlyStarted(miniGame)) &&
      (old(cookingStage) != Select && cookingStage != old(cookingStage) ==> GameCompleted(prev)) &&
      (cookingStage == old(cookingStage) ==> miniGame == prev)
    }

    /**
     * An event in the cooking mode: first the stage's own handling, then the
     * next button. The stage moves one step forward exactly when the event
     * completes the selection or finishes the live tracker, each step to a
     * fresh tracker. The next button adds nothing to that: by then the
     * selection is incomplete and the chop or mix tracker is not completed,
     * so only its serve branch can fire, scoring a timed-out dish.
     */
    method CookingEvent(e: Event, held: bool, pointer: Point, pick: AreaIndex)
      requires Valid() && gameState.currentState == "cooking"
      modifies this, gameState, Objects(miniGame)
      ensures Valid()
      ensures showHelp == old(showHelp)
      ensures Cooked(old(miniGame), e, held, pointer, pick)
    {
      var _ := StageEvent(e, held, pointer, pick);
      // The next button is tested after the stage's own handling.
      if e.kind == MouseButtonDown {
        if CollidePoint(NextButton, e.pos) {
          NextButtonClicked(pick);
        }
      }
    }

    /** The recipe whose row is hit becomes current, with an empty selection. */
    method PickRecipe(p: Point)
      requires Valid()
      modifies this, gameState
      ensures Valid()
      ensures miniGame == old(miniGame) && score == old(score) && showHelp == old(showHelp)
      ensures RowAt(p).Some? ==>
        var i := RowAt(p).value;
        currentRecipeIndex == i && gameState.currentState == "cooking" && cookingStage == Select &&
        selectedIngredients == [] && currentBackground == BackgroundFor(i)
      ensures RowAt(p).None? ==> ProgressOf() == old(ProgressOf())
    {
      var i := 0;
      while i < |Recipes|
        invariant 0 <= i <= |Recipes|
        invariant Valid()
        invariant miniGame == old(miniGame) && score == old(score) && showHelp == old(showHelp)
        invariant RowAt(p).Some? && RowAt(p).value < i ==>
          var k := RowAt(p).value;
          currentRecipeIndex == k && gameState.currentState == "cooking" && cookingStage == Select &&
          selectedIngredients == [] && currentBackground == BackgroundFor(k)
        invariant !(RowAt(p).Some? && RowAt(p).value < i) ==> ProgressOf() == old(ProgressOf())
      {
        RowAtExact(p, i);
        var rect := Rect(200, 150 + i * 100, 400, 80);
        assert rect == RecipeRow(i);
        if CollidePoint(rect, p) {
          StartRecipe(i);
        }
        i := i + 1;
      }
    }

    /** Recipe `i` was picked: cooking starts at the selection stage with nothing selected. */
    method StartRecipe(i: nat)
      requires Valid() && i < |Recipes|
      modifies this`currentRecipeIndex, this`currentRecipe, this`cookingStage, this`selectedIngredients
      modifies this`currentBackground, gameState
      ensures Valid()
      ensures miniGame == old(miniGame) && score == old(score) && showHelp == old(showHelp)
      ensures currentRecipeIndex == i && gameState.currentState == "cooking" && cookingStage == Select &&
        selectedIngredients == [] && currentBackground == BackgroundFor(i)
    {
      RecipesNeedIngredients(i);
      currentRecipeIndex := i;
      currentRecipe := Recipes[i];
      gameState.SetState("cooking");
      cookingStage := Select;
      selectedIngredients := [];
      currentBackground := BackgroundFor(i);
    }

    /** The ingredient whose tile is hit is appended if the recipe needs it and it is new. */
    method SelectIngredientAt(p: Point)
      requires WellSelected(selectedIngredients, currentRecipe)
      modifies this`selectedIngredients
      ensures WellSelected(selectedIngredients, currentRecipe)
      ensures selectedIngredients == AfterClick(old(selectedIngredients), currentRecipe, p)
    {
      ghost var before := selectedIngredients;
      ghost var after := AfterClick(before, currentRecipe, p);
      var i := 0;
      while i < |Ingredients|
        invariant 0 <= i <= |Ingredients|
        invariant selectedIngredients == if TileAt(p).Some? && TileAt(p).value < i then after else before
      {
        TileAtExact(p, i);
        var ingredient := Ingredients[i];
        // `self.ingredients.index(ingredient)` is `i`: the catalogue's entries are distinct.
        var idx := i;
        var rect := Rect(100 + (idx % 5) * 100, 150 + (idx / 5) * 100, 64, 64);
        assert rect == IngredientTile(i);
        if CollidePoint(rect, p) {
          if ingredient.name in currentRecipe.ingredients {
            if ingredient.name !in Names(selectedIngredients) {
              selectedIngredients := selectedIngredients + [ingredient];
            }
          }
        }
        i := i + 1;
      }
    }

    /**
     * The stage-specific part of an event in the cooking mode. In the select
     * stage a mouse-down may select an ingredient and, once the selection is
     * complete, starts chopping; in the other stages the event goes to the live
     * tracker, whose "completed" moves on to the next stage, or for serving
     * scores the dish and returns to the recipe list without resetting the
     * stage or the selection. Returns the tracker's answer, which is
     * "completed" exactly when the event finishes the tracker.
     */
    method StageEvent(e: Event, held: bool, pointer: Point, pick: AreaIndex) returns (result: Option<Signal>)
      requires Valid() && gameState.currentState == "cooking"
      modifies this, gameState, Objects(miniGame)
      ensures Valid()
      ensures currentRecipeIndex == old(currentRecipeIndex) && showHelp == old(showHelp)
      ensures currentBackground == old(currentBackground)
      ensures old(cookingStage) != Serve ==> score == old(score) && gameState.currentState == "cooking"
      ensures old(cookingStage) == Select ==>
        selectedIngredients ==
          (if e.kind == MouseButtonDown then AfterClick(old(selectedIngredients), currentRecipe, e.pos)
           else old(selectedIngredients)) &&
        cookingStage == (if |selectedIngredients| == |currentRecipe.ingredients| then Chop else Select) &&
        (cookingStage == Chop ==> miniGame.chopper.activeArea == ChopAreas[pick])
      ensures old(cookingStage) != Select ==>
        selectedIngredients == old(selectedIngredients) &&
        result == (if old(Finishes(e, held, pointer)) then Some(Completed) else None) &&
        cookingStage == Advance(old(cookingStage), result == Some(Completed)) &&
        (result == Some(Completed) ==> GameCompleted(old(miniGame)))
      ensures old(cookingStage) == Chop ==> old(miniGame).chopper.Handled(e, pick)
      ensures old(cookingStage) == Mix ==> old(miniGame).mixer.Handled(e, held, pointer)
      ensures old(cookingStage) == Serve ==> old(miniGame).server.Handled(e)
      ensures old(cookingStage) == Serve ==>
        score == old(score) + (if result == Some(Completed) then DishScore else 0) &&
        gameState.currentState == (if result == Some(Completed) then "recipe_selection" else "cooking") &&
        (e.kind != MouseButtonUp ==> GameCompleted(miniGame) == old(GameCompleted(miniGame)))
      ensures cookingStage != old(cookingStage) ==> fresh(Objects(miniGame)) && FreshlyStarted(miniGame)
      ensures cookingStage == old(cookingStage) ==> miniGame == old(miniGame)
    {
      result := None;
      if cookingStage == Select {
        if e.kind == MouseButtonDown {
          SelectStageClick(e.pos, pick);
        }
      } else if cookingStage == Chop {
        result := ChopStageEvent(e, pick);
      } else if cookingStage == Mix {
        result := MixStageEvent(e, held, pointer);
      } else {
        result := ServeStageEvent(e);
      }
    }

    /** A mouse-down in the select stage: maybe one more ingredient, then chopping once complete. */
    method SelectStageClick(p: Point, pick: AreaIndex)
      requires Valid() && cookingStage == Select
      modifies this
      ensures Valid()
      ensures currentRecipeIndex == old(currentRecipeIndex) && currentRecipe == old(currentRecipe)
      ensures score == old(score) && showHelp == old(showHelp) && currentBackground == old(currentBackground)
      ensures selectedIngredients == AfterClick(old(selectedIngredients), currentRecipe, p)
      ensures cookingStage == (if |selectedIngredients| == |currentRecipe.ingredients| then Chop else Select)
      ensures cookingStage == Select ==> miniGame == old(miniGame)
      ensures cookingStage == Chop ==>
        miniGame.ChopGame? && fresh(miniGame.chopper) && FreshlyStarted(miniGame) &&
        miniGame.chopper.activeArea == ChopAreas[pick]
    {
      SelectIngredientAt(p);
      SelectionBounded(selectedIngredients, currentRecipe);
      if |selectedIngredients| == |currentRecipe.ingredients| {
        cookingStage := Chop;
        var chopper := new ChoppingGame(pick);
        miniGame := ChopGame(chopper);
      }
    }

    /** The chop stage hands the event to the chopping game; "completed" starts mixing. */
    method ChopStageEvent(e: Event, pick: AreaIndex) returns (result: Option<Signal>)
      requires Valid() && cookingStage == Chop
      modifies this, Objects(miniGame)
      ensures Valid()
      ensures currentRecipeIndex == old(currentRecipeIndex) && selectedIngredients == old(selectedIngredients)
      ensures score == old(score) && showHelp == old(showHelp) && currentBackground == old(currentBackground)
      ensures result ==
        if IsChop(e, old(miniGame.chopper.activeArea)) && old(miniGame.chopper.chopCount) + 1 >= RequiredChops
        then Some(Completed) else None
      ensures result == Some(Completed) ==> GameCompleted(old(miniGame))
      ensures cookingStage == (if result == Some(Completed) then Mix else Chop)
      ensures old(miniGame).chopper.Handled(e, pick)
      ensures cookingStage == Mix ==> fresh(Objects(miniGame)) && FreshlyStarted(miniGame)
      ensures cookingStage == Chop ==> miniGame == old(miniGame)
    {
      result := None;
      if miniGame.ChopGame? {
        result := miniGame.chopper.HandleEvent(e, pick);
        if result == Some(Completed) {
          cookingStage := Mix;
          var mixer := new MixingGame(angleTo);
          miniGame := MixGame(mixer);
        }
      }
    }

    /** The mix stage hands the event to the mixing game; "completed" starts serving. */
    method MixStageEvent(e: Event, held: bool, pointer: Point) returns (result: Option<Signal>)
      requires Valid() && cookingStage == Mix
      modifies this, Objects(miniGame)
      ensures Valid()
      ensures currentRecipeIndex == old(currentRecipeIndex) && selectedIngredients == old(selectedIngredients)
      ensures score == old(score) && showHelp == old(showHelp) && currentBackground == old(currentBackground)
      ensures result ==
        if old(miniGame.mixer.Stirs(e, held, pointer)) && old(miniGame.mixer.mixCount) + 1 >= RequiredMixes
        then Some(Completed) else None
      ensures result == Some(Completed) ==> GameCompleted(old(miniGame))
      ensures cookingStage == (if result == Some(Completed) then Serve else Mix)
      ensures old(miniGame).mixer.Handled(e, held, pointer)
      ensures cookingStage == Serve ==> fresh(Objects(miniGame)) && FreshlyStarted(miniGame)
      ensures cookingStage == Mix ==> miniGame == old(miniGame)
    {
      result := None;
      if miniGame.MixGame? {
        result := miniGame.mixer.HandleEvent(e, held, pointer);
        if result == Some(Completed) {
          cookingStage := Serve;
          var server := new ServingGame();
          miniGame := ServeGame(server);
        }
      }
    }

    /**
     * The serve stage hands the event to the serving game; "completed" scores
     * the dish and returns to the recipe list, leaving the stage, the
     * selection and the tracker as they are.
     */
    method ServeStageEvent(e: Event) returns (result: Option<Signal>)
      requires Valid() && cookingStage == Serve
      modifies this, gameState, Objects(miniGame)
      ensures Valid()
      ensures currentRecipeIndex == old(currentRecipeIndex) && selectedIngredients == old(selectedIngredients)
      ensures showHelp == old(showHelp) && currentBackground == old(currentBackground)
      ensures cookingStage == Serve && miniGame == old(miniGame) && miniGame.server.Handled(e)
      ensures result ==
        if e.kind == MouseButtonUp && Contains(Plate, old(miniGame.server.foodRect)) then Some(Completed) else None
      ensures result == Some(Completed) ==> GameCompleted(miniGame)
      ensures e.kind != MouseButtonUp ==> GameCompleted(miniGame) == old(GameCompleted(miniGame))
      ensures score == old(score) + (if result == Some(Completed) then DishScore else 0)
      ensures gameState.currentState ==
        (if result == Some(Completed) then "recipe_selection" else old(gameState.currentState))
    {
      result := None;
      if miniGame.ServeGame? {
        result := miniGame.server.HandleEvent(e);
        if result == Some(Completed) {
          score := score + DishScore;
          gameState.SetState("recipe_selection");
        }
      }
    }

    /**
     * The next button: from select when the selection is complete, from chop
     * and mix when the live tracker is completed; from serve a completed
     * tracker (served or timed out) scores the dish and returns to the
     * recipe list.
     */
    method NextButtonClicked(pick: AreaIndex)
      requires Selecting()
      modifies this, gameState
      ensures Valid()
      ensures currentRecipeIndex == old(currentRecipeIndex) && selectedIngredients == old(selectedIngredients) &&
        showHelp == old(showHelp) && currentBackground == old(currentBackground)
      ensures cookingStage == Advance(old(cookingStage),
        if old(cookingStage) == Select then old(|selectedIngredients| == |currentRecipe.ingredients|)
        else old(GameCompleted(miniGame)))
      ensures var served := old(cookingStage) == Serve && old(GameCompleted(miniGame));
        score == old(score) + (if served then DishScore else 0) &&
        gameState.currentState == (if served then "recipe_selection" else old(gameState.currentState))
      ensures cookingStage != old(cookingStage) ==> fresh(Objects(miniGame)) && FreshlyStarted(miniGame)
      ensures cookingStage == old(cookingStage) ==> miniGame == old(miniGame)
    {
      SelectionBounded(selectedIngredients, currentRecipe);
      if cookingStage == Select {
        if |selectedIngredients| == |currentRecipe.ingredients| {
          Begin(Chop, pick);
        }
      } else if cookingStage == Chop {
        var done := IsGameCompleted(miniGame);
        if done {
          Begin(Mix, pick);
        }
      } else if cookingStage == Mix {
        var done := IsGameCompleted(miniGame);
        if done {
          Begin(Serve, pick);
        }
      } else {
        var done := IsGameCompleted(miniGame);
        if done {
          FinishDish();
        }
      }
    }

    /** Enter a chop, mix or serve stage with a new tracker of its kind. */
    method Begin(stage: Stage, pick: AreaIndex)
      requires Selecting() && stage != Select && |selectedIngredients| == |currentRecipe.ingredients|
      modifies this`cookingStage, this`miniGame
      ensures Valid()
      ensures cookingStage == stage && fresh(Objects(miniGame)) && FreshlyStarted(miniGame)
    {
      cookingStage := stage;
      match stage
      case Chop =>
        var chopper := new ChoppingGame(pick);
        miniGame := ChopGame(chopper);
      case Mix =>
        var mixer := new MixingGame(angleTo);
        miniGame := MixGame(mixer);
      case Serve =>
        var server := new ServingGame();
        miniGame := ServeGame(server);
    }

    /** A served dish scores and returns to the recipe list; the stage and selection stay as they are. */
    method FinishDish()
      requires Selecting() && cookingStage == Serve
      modifies this`score, gameState
      ensures Valid()
      ensures score == old(score) + DishScore && gameState.currentState == "recipe_selection"
    {
      score := score + DishScore;
      gameState.SetState("recipe_selection");
    }

    /** With coconut payasam current the selection is never complete, so chopping is never reached. */
    lemma CoconutPayasamStaysInSelect()
      requires Valid()
      ensures currentRecipeIndex == CoconutPayasam ==> cookingStage == Select
    {
      if currentRecipeIndex == CoconutPayasam {
        CoconutPayasamIncomplete(selectedIngredients);
      }
    }

    /**
     * While cooking, a completed serve tracker has timed out without serving:
     * a serving release leaves the cooking mode in the same event. So the
     * next button scores a dish only after a timeout.
     */
    lemma ServeCompletedMeansTimedOut()
      requires Valid() && gameState.currentState == "cooking" && cookingStage == Serve
      ensures GameCompleted(miniGame) ==> !miniGame.server.served && miniGame.server.timer >= TimeLimit
    {
    }

    /**
     * One frame. In the cooking mode the live tracker of the chop or serve
     * stage advances (a timeout answer is dropped); mixing has no per-frame
     * behaviour. Nothing the controller owns changes.
     */
    method Update(pick: AreaIndex)
      requires Valid()
      modifies Objects(miniGame)
      ensures Valid()
      ensures ProgressOf() == old(ProgressOf()) && showHelp == old(showHelp)
      ensures gameState.currentState != "cooking" || cookingStage == Select || cookingStage == Mix ==>
        unchanged(Objects(miniGame))
      ensures gameState.currentState == "cooking" && cookingStage == Chop ==>
        var c := miniGame.chopper;
        c.timer == ChopTick(old(c.timer)) && c.chopCount == old(c.chopCount) && c.completed == old(c.completed) &&
        (old(c.timer) < RelocateAfter ==> c.activeArea == old(c.activeArea)) &&
        (old(c.timer) == RelocateAfter ==> c.activeArea == ChopAreas[pick])
      ensures gameState.currentState == "cooking" && cookingStage == Serve ==>
        var s := miniGame.server;
        s.timer == old(s.timer) + 1 && s.served == old(s.served) &&
        s.foodRect == old(s.foodRect) && s.dragging == old(s.dragging) &&
        s.completed == (old(s.completed) || s.timer >= TimeLimit)
    {
      if gameState.currentState == "cooking" {
        if cookingStage == Chop && miniGame.ChopGame? {
          miniGame.chopper.Update(pick);
        } else if cookingStage == Mix && miniGame.MixGame? {
          // MixingGame inherits the base class's `update`, which does nothing.
        } else if cookingStage == Serve && miniGame.ServeGame? {
          var _ := miniGame.server.Update();
        }
      }
    }
  }
}
