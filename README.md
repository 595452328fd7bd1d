# Telugu Cooking Game — a verified model of its game logic

This project models the input-to-state logic of the Telugu Cooking Game, a
pygame game in which the player:

1. picks one of five Telugu recipes;
2. selects that recipe's ingredients from a grid of fifteen;
3. plays three mini-games in turn: chopping, mixing and serving;
4. scores 100 points per finished dish.

Drawing, assets and the frame loop are not modelled. What is modelled:

- **`GameStates`** (`game_state.dfy`): the top-level mode validator. It
  holds one of `menu`, `recipe_selection`, `cooking` and `result`, and
  rejects any other name.
- **`MiniGames`** (`mini_games.dfy`): the three mini-game trackers, each a
  class whose methods update its fields in place.
  - `ChoppingGame`: a hit counter on a relocating target, and the
    frame-counted relocation timer.
  - `MixingGame`: counting stirs by the change of angle around the bowl's
    centre.
  - `ServingGame`: dragging the food onto the plate, with a frame-counted
    timeout.
  - Also here: the on-screen seconds-left arithmetic.
- **`Catalogue`** (`catalogue.dfy`):
  - the recipe and ingredient tables, with their Telugu names as written
    in the game;
  - the hit geometry of the recipe rows and the ingredient tiles;
  - the rules that keep the selected-ingredient list duplicate-free and
    within the recipe.
- **`Cooking`** (`cooking.dfy`): the stage controller `TeluguCookingGame`.
  - The help overlay, the menu and recipe picking.
  - Ingredient selection and the forward-only select → chop → mix → serve
    progression; each step installs a fresh tracker.
  - The score.
  - Its per-frame `Update`.
- **`Geometry`** (`geometry.dfy`): integer points, rectangles and events,
  with pygame's `Rect.collidepoint` (half-open), `Rect.contains` (inclusive)
  and the `center` assignment (`x = cx - w // 2`).
- **`Wrappers`** (`wrappers.dfy`): an `Option` type, used for the handlers'
  "no result" answer.

Inputs the program takes from its environment become parameters:

- `random.choice` over the three chop zones is a caller-supplied
  `pick: AreaIndex`.
- `Vector2.angle_to` is an uninterpreted function, `angleTo`, given to each
  mixing game.
- The mixing handler reads the global mouse state, so the held-button flag
  and pointer position arrive as `held` and `pointer`.

The controller keeps the invariant `Valid()`:

- the mode is a listed name;
- the current recipe is the indexed one;
- the selection is well formed, and is short of complete exactly while in
  the select stage;
- the live tracker is valid and of the stage's kind, and a mixing game
  measures angles with the controller's angle function and turns clockwise;
- the score is a non-negative multiple of 100;
- the chop and mix trackers are never completed between events, because
  the event that completes one also replaces it;
- while cooking the serve tracker has not served, because the event that
  serves also leaves the cooking mode.

Consequences of the code as written, proved about the model:

- The chop target relocates on the 61st update, not the 60th: `update`
  tests `timer > 60`, so the counter runs through 0..60. This is
  `MiniGames.TimerAfterIsRemainder` and `RelocatesEvery61stUpdate`. The
  source's own comment at src/mini_games.py:46 says the area changes
  "every second", which at 60 frames a second is one tick short; the model
  follows the code.
- Finishing the serve stage returns the mode to `recipe_selection` but
  leaves the stage at serve, and the selection and tracker as they were.
  The stage and selection are reset when the next recipe is picked; the
  finished serving game stays in place until a complete selection starts
  a new chopping game.
- The mixing tracker remembers the last pointer position, not an angle.
  On the event that completes the game it returns before recording the
  new position.
- Coconut payasam (recipe 3) needs milk, sugar and cardamom, which the
  catalogue does not offer. Its selection can never be complete, so its
  chop stage is never reached (`Catalogue.CoconutPayasamIncomplete`,
  `Cooking.TeluguCookingGame.CoconutPayasamStaysInSelect`).
- A timed-out serve still counts as completed. `update` drops the
  "timeout" answer, and the next button then scores the dish anyway
  (`MiniGames.ServingGame.Update` with
  `Cooking.TeluguCookingGame.NextButtonClicked`).
- Of the next button's four branches only the serve branch can ever fire,
  and only after a timeout. A mouse-down that completes the selection has
  already started chopping before the next-button test runs, and a chop or
  mix tracker is replaced on the event that completes it, so it is never
  completed when the button is tested. `Cooking.TeluguCookingGame.HandleEvent`
  states the stage after an event without any next-button term, and
  `ServeCompletedMeansTimedOut` shows that a completed serve tracker in the
  cooking mode has timed out without serving.

## Model

| member | source | states |
|---|---|---|
| `GameStates.GameState.constructor` | src/game_state.py:2-4 | a new validator is valid and starts in `menu` |
| `GameStates.GameState.SetState` | src/game_state.py:6-10 | a listed name becomes the mode; any other name leaves the mode unchanged; the mode stays one of the four names |
| `GameStates.GameState.GetState` | src/game_state.py:12-13 | returns the current mode, which is one of the four names, and changes nothing |
| `GameStates.AfterSetState` | src/game_state.py:6-10 | the mode after a request stays among the four names, and differs from the old mode only when it is the requested, listed name |
| `GameStates.SetStateIdempotent` | src/game_state.py:6-10 | requesting the same mode twice has the effect of requesting it once |
| `Geometry.WithCenter` | src/mini_games.py:161 | assigning a rectangle's centre keeps its size and puts its centre exactly at the given point |
| `MiniGames.TimerAfterIsRemainder` | src/mini_games.py:44-48 | after n updates of a fresh chopping game the tick counter is n mod 61 |
| `MiniGames.RelocatesEvery61stUpdate` | src/mini_games.py:44-48 | the n-th update relocates the target exactly when n is a multiple of 61 |
| `MiniGames.ChoppingGame.constructor` | src/mini_games.py:20-31 | not completed, no chops, timer 0, the target is the picked zone |
| `MiniGames.ChoppingGame.HandleEvent` | src/mini_games.py:33-42 | a mouse-down inside the target adds exactly one chop and re-picks the target; any other event changes nothing; "completed" is answered exactly on a hit reaching ten chops; the flag is first set on the tenth hit and never cleared |
| `MiniGames.ChoppingGame.Update` | src/mini_games.py:44-48 | the counter advances by one, and on the step past 60 resets to 0 and relocates the target; the counter stays in 0..60 and the target is one of the three zones |
| `MiniGames.ChoppingGame.IsCompleted` | src/mini_games.py:17-18 | answers the completed flag, which holds exactly when ten chops were made |
| `MiniGames.MixingGame.constructor` | src/mini_games.py:75-84 | not completed, no stirs, no previous position, clockwise |
| `MiniGames.MixingGame.HandleEvent` | src/mini_games.py:86-117 | only a held-button motion inside the bowl is considered; without a previous position it only records the position; the count rises by exactly one on a stir (the angle moved more than 10 degrees in the configured direction), and never otherwise; "completed" comes when a move of more than 10 degrees leaves at least 15 stirs; the position is recorded unless the game just completed; a button-up forgets the position; the flag is never cleared |
| `MiniGames.MixingGame.IsCompleted` | src/mini_games.py:17-18 | answers the completed flag, which holds exactly when fifteen stirs were made |
| `MiniGames.TimeLeft` | src/mini_games.py:195-196 | the seconds shown lie in 0..10; zero exactly after frame 540; at most three (the warning colour) exactly after frame 360 |
| `MiniGames.DropOnPlateExactly` | src/mini_games.py:159-167 | releasing food dragged to pointer p serves it exactly when 350 <= p.x <= 450 and p.y = 425 |
| `MiniGames.ServedFoodSitsOnPlateTop` | src/mini_games.py:146-167 | food as high as the plate that the plate contains has its top edge on the plate's top edge (y = 400) |
| `MiniGames.ServingGame.constructor` | src/mini_games.py:143-152 | not completed, food at its start rectangle in the pot, not dragging, not served, timer 0 |
| `MiniGames.ServingGame.HandleEvent` | src/mini_games.py:154-170 | a mouse-down on the food starts a drag; a motion while dragging moves the food to (px - 50, py - 25) at size 100×50; a button-up always ends the drag and serves and completes exactly when the plate contains the food, which otherwise stays put; other events change nothing |
| `MiniGames.ServingGame.Update` | src/mini_games.py:172-176 | the timer rises by one; "timeout" is answered exactly on the first update at or past frame 600 without completion; it completes the game but never serves the food |
| `MiniGames.ServingGame.IsCompleted` | src/mini_games.py:17-18 | answers the completed flag; a served food implies completion, and a completion without serving means the timer reached frame 600 |
| `Catalogue.RecipesNeedIngredients` | src/main.py:53-64 | every recipe lists at least one ingredient, so an empty selection is never complete |
| `Catalogue.TileAtExact` | src/main.py:260-267 | a point hits ingredient tile k, at (100 + (k mod 5)·100, 150 + (k div 5)·100) and 64×64, exactly when the closed-form tile lookup names k |
| `Catalogue.TilesDisjoint` | src/main.py:260-267 | no point lies in two ingredient tiles: one click selects at most one ingredient |
| `Catalogue.RowAtExact` | src/main.py:235-237 | a point hits recipe row i, at (200, 150 + 100·i) and 400×80, exactly when the closed-form row lookup names i |
| `Catalogue.RowsDisjoint` | src/main.py:235-237 | no point lies in two recipe rows: one click picks at most one recipe |
| `Catalogue.Choose` | src/main.py:267-270 | a clicked ingredient is appended exactly when the recipe needs it and its name is not yet selected, and otherwise the list is unchanged; the selection stays duplicate-free and within the recipe |
| `Catalogue.SelectionBounded` | src/main.py:267-278 | a duplicate-free selection of recipe ingredients is never longer than the recipe's list |
| `Catalogue.CoconutPayasamIncomplete` | src/main.py:60-83 | for coconut payasam at most two ingredients (rice, coconut) can be selected, fewer than the five it lists |
| `Cooking.Advance` | src/main.py:315-333 | the next button moves the stage exactly when it is ready and not serving, and then one step forward |
| `Cooking.IsGameCompleted` | src/main.py:323 | `self.mini_game and self.mini_game.is_completed()`: false without a tracker, otherwise the tracker's flag |
| `Cooking.TeluguCookingGame.constructor` | src/main.py:85-103 | the controller starts valid in `menu`, recipe 0, empty selection, select stage, no tracker, score 0, help closed |
| `Cooking.TeluguCookingGame.HandleEvent` | src/main.py:217-333 | the help button and the close box consume their clicks and change nothing else; the menu's start button opens the recipe list and changes nothing else; a recipe row starts that recipe; any other mode changes nothing; outside cooking no tracker changes; while cooking the recipe and background stay; in select the selection follows Choose and chopping starts exactly when it is complete; in chop, mix and serve the live tracker ends exactly as its own handler leaves it (`Handled`), and the stage advances exactly on the event that finishes it (the tenth chop, the fifteenth stir), each time to a fresh tracker; in serve +100 and the recipe list come exactly from a release over the plate or a next-button click on a completed tracker; the score changes only that way; the invariant is kept and coconut payasam never leaves select |
| `Cooking.TeluguCookingGame.HelpEvent` | src/main.py:218-225 | the help button opens the overlay, the close box (while open) shuts it |
| `Cooking.TeluguCookingGame.MenuEvent` | src/main.py:227-230 | a mouse-down on the start button sets `recipe_selection`; anything else keeps `menu` |
| `Cooking.TeluguCookingGame.ModeEvent` | src/main.py:227-333 | the per-mode effect of an event the help overlay does not consume: the menu and recipe-list clauses of HandleEvent, and `Cooked` while cooking |
| `Cooking.TeluguCookingGame.BrowseEvent` | src/main.py:227-254 | outside cooking: the menu's start button changes only the mode, a recipe row starts that recipe, and nothing happens in `result` |
| `Cooking.TeluguCookingGame.CookingEvent` | src/main.py:256-333 | states `Cooked`, the stage's handling and then the next button: the live tracker ends as its handler leaves it, the stage advances exactly when the selection completes or the event finishes the tracker, and the next button adds only the serve score of a completed tracker |
| `Cooking.TeluguCookingGame.PickRecipe` | src/main.py:232-254 | the loop over the rows picks the hit row's recipe, enters `cooking` at select with nothing selected and that recipe's background; a click on no row changes nothing |
| `Cooking.TeluguCookingGame.StartRecipe` | src/main.py:238-254 | recipe i becomes current, with the mode, stage, selection and background set as on a row hit |
| `Cooking.TeluguCookingGame.SelectIngredientAt` | src/main.py:258-275 | the loop over the catalogue leaves the selection as Choose gives it for the tile the click hits, or unchanged for no tile |
| `Cooking.TeluguCookingGame.StageEvent` | src/main.py:256-313 | the stage-specific handling: in select as SelectStageClick; elsewhere the event goes to the live tracker, which ends as its handler leaves it; the answer is "completed" exactly when the event finishes the tracker, and the stage advances (or, in serve, +100 and the recipe list) exactly then |
| `Cooking.TeluguCookingGame.SelectStageClick` | src/main.py:257-280 | a mouse-down in select updates the selection, then starts chopping with a fresh game at the picked zone exactly when the selection is complete |
| `Cooking.TeluguCookingGame.ChopStageEvent` | src/main.py:282-291 | the answer is "completed" exactly on a chop in the target that makes the tenth, and that starts mixing with a fresh clockwise game on the controller's angle function; the chopping game ends as its handler leaves it (count, target, timer, flag) |
| `Cooking.TeluguCookingGame.MixStageEvent` | src/main.py:293-302 | the answer is "completed" exactly on a stir that makes the fifteenth, and that starts serving with a fresh game; the mixing game ends as its handler leaves it (count, recorded position, flag) |
| `Cooking.TeluguCookingGame.ServeStageEvent` | src/main.py:304-313 | the answer is "completed" exactly on a release with the food on the plate, and that adds 100 and returns to the recipe list, leaving stage, selection and tracker; the serving game ends as its handler leaves it (drag, food, served, flag); any other event kind leaves its completion as it was |
| `Cooking.TeluguCookingGame.NextButtonClicked` | src/main.py:315-333 | the stage becomes Advance of the old stage with readiness (complete selection, or completed tracker); a completed serve adds 100 and returns to the recipe list; a moved stage has a fresh tracker |
| `Cooking.TeluguCookingGame.Begin` | src/main.py:319-329 | the chop, mix or serve stage starts with a fresh tracker of its kind |
| `Cooking.TeluguCookingGame.FinishDish` | src/main.py:331-333 | adds 100 to the score and sets `recipe_selection` |
| `Cooking.TeluguCookingGame.CoconutPayasamStaysInSelect` | src/main.py:277-280 | with coconut payasam current the stage is always select |
| `Cooking.TeluguCookingGame.ServeCompletedMeansTimedOut` | src/main.py:304-313 | while cooking, a completed serve tracker has not served and its timer has reached frame 600: serving leaves the cooking mode in the same event |
| `Cooking.TeluguCookingGame.Update` | src/main.py:335-342 | in cooking, the chop tracker's timer ticks and its target relocates past 60; the serve tracker's timer advances and it completes at frame 600, its timeout answer dropped, with food, drag and served unchanged; mixing does nothing; the controller's own fields do not change |

## Left out

- Rendering: every `draw` method, fonts, colours, the help panel and the
  result screen. Only the seconds-left arithmetic of the serving screen is
  modelled (`TimeLeft`, and `ShowsWarning` for its colour).
- The frame loop `run`, event polling, `clock.tick`, ESC and QUIT
  handling, and process exit: these are I/O.
- Loading of backgrounds, sounds and ingredient images, with the fallbacks
  and the placeholder colour table for failed loads: file I/O. The sounds
  played on a correct or wrong pick are therefore not modelled.
- The unused `create_placeholder_ingredients`, the font download script
  and the one-off source-patching scripts: network and file I/O, outside
  the game logic.
- Debug `print` calls, including `set_state`'s message for a rejected
  name.
- Floating-point trigonometry: `Vector2.angle_to` is the uninterpreted
  `angleTo`. Angles are compared raw, with no wrap-around normalisation,
  as in the source.
- The mixing game's `last_angle` field: it is set in the constructor and
  never read.
- The `MiniGame` base class is folded into the three trackers. Each
  carries its own `completed` flag and `IsCompleted`; mixing keeps the
  base's empty `update`, which `Cooking.TeluguCookingGame.Update` shows as
  a no-op.
- `self.mini_game` being `None` or a tracker is the `MiniGameRef`
  variant; `if self.mini_game` is a variant test.
- `Recipe` is defined in a file that is not part of this model. It is
  taken as a name, a list of ingredient names and instructions.
  `Ingredient` keeps only its name and image file name.
