/** The top-level mode of the game (src/game_state.py). */
module GameStates {

  /** The only names `set_state` accepts, in the order `GameState` lists them. */
  const ModeNames: seq<string> := ["menu", "recipe_selection", "cooking", "result"]

  class GameState {
    const states: seq<string>
    var currentState: string

    /** The mode is always one of the four names. */
    ghost predicate Valid()
      reads this
    {
      states == ModeNames && currentState in states
    }

    /** A new game starts in the menu. */
    constructor ()
      ensures Valid()
      ensures currentState == "menu"
    {
      states := ModeNames;
      currentState := "menu";
    }

    /**
     * A listed name becomes the current mode; any other name is rejected and
     * the mode stays as it was (`set_state` prints a diagnostic, not modelled).
     */
    method SetState(state: string)
      requires Valid()
      modifies this
      ensures Valid()
      ensures state in ModeNames ==> currentState == state
      ensures state !in ModeNames ==> currentState == old(currentState)
      ensures currentState == AfterSetState(old(currentState), state)
    {
      if state in states {
        currentState := state;
      }
    }

    /** Reads the mode without changing anything. */
    method GetState() returns (state: string)
      requires Valid()
      ensures state == currentState
      ensures state in ModeNames
    {
      state := currentState;
    }
  }

  /** The mode after `set_state(requested)` from mode `current`. */
  function AfterSetState(current: string, requested: string): (next: string)
    ensures current in ModeNames ==> next in ModeNames
    ensures next != current ==> next == requested && requested in ModeNames
  {
    if requested in ModeNames then requested else current
  }

  /** Asking for the same mode twice has the effect of asking once. */
  lemma SetStateIdempotent(current: string, requested: string)
    ensures AfterSetState(AfterSetState(current, requested), requested) == AfterSetState(current, requested)
  {
  }
}
