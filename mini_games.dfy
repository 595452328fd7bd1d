/**
 * The three mini-game trackers of src/mini_games.py. Each is a class whose
 * fields the handlers update in place; the `MiniGame` base class only
 * contributes the one-way `completed` flag, which each class declares itself.
 */
module MiniGames {
  import opened Wrappers
  import opened Geometry

  /** The strings a handler returns instead of `None`: "completed" and "timeout". */
  datatype Signal = Completed | Timeout

  // ---------------------------------------------------------------------------
  // Chopping

  const RequiredChops := 10

  /** An update relocates the target once the tick counter goes past this. */
  const RelocateAfter := 60

  /** The three fixed chopping zones. */
  const ChopAreas: seq<Rect> :=
    [Rect(200, 200, 100, 100), Rect(350, 200, 100, 100), Rect(500, 200, 100, 100)]

  /**
   * The outcome of one `random.choice(self.chop_areas)`, as an index into
   * ChopAreas chosen by the caller: every property below holds for every choice.
   */
  type AreaIndex = k: nat | k < 3

  /** A mouse-down inside the current target counts as a chop. */
  predicate IsChop(e: Event, target: Rect) {
    e.kind == MouseButtonDown && CollidePoint(target, e.pos)
  }

  /** The tick counter after one `update` that starts from `timer`. */
  function ChopTick(timer: int): int {
    if timer + 1 > RelocateAfter then 0 else timer + 1
  }

  /** The tick counter after `n` calls of `update` on a fresh game. */
  function TimerAfter(n: nat): int {
    if n == 0 then 0 else ChopTick(TimerAfter(n - 1))
  }

  /** After `n` updates the counter is `n` modulo 61: the counter cycles through 0..60. */
  lemma {:induction false} TimerAfterIsRemainder(n: nat)
    ensures TimerAfter(n) == n % (RelocateAfter + 1)
  {
    if n > 0 {
      TimerAfterIsRemainder(n - 1);
      RemainderStep(n - 1);
    }
  }

  /** Counting modulo 61, one step from `m` wraps to 0 exactly after 60. */
  lemma RemainderStep(m: nat)
    ensures (m + 1) % 61 == if m % 61 == 60 then 0 else m % 61 + 1
  {
    assert m == 61 * (m / 61) + m % 61;
  }

  /**
   * The `n`-th update (counting from 1) relocates the target exactly when `n`
   * is a multiple of 61: the relocation comes on the 61st tick, not the 60th.
   */
  lemma RelocatesEvery61stUpdate(n: nat)
    requires n >= 1
    ensures TimerAfter(n - 1) + 1 > RelocateAfter <==> n % (RelocateAfter + 1) == 0
  {
    TimerAfterIsRemainder(n - 1);
  }

  class ChoppingGame {
    var completed: bool
    var chopCount: int
    const requiredChops: int
    const chopAreas: seq<Rect>
    var activeArea: Rect
    var timer: int

    /** The target is one of the zones, the counter stays in 0..60, and
        `completed` holds exactly when enough chops were made. */
    ghost predicate Valid()
      reads this
    {
      requiredChops == RequiredChops && chopAreas == ChopAreas &&
      activeArea in chopAreas && 0 <= chopCount && 0 <= timer <= RelocateAfter &&
      (completed <==> chopCount >= requiredChops)
    }

    constructor (pick: AreaIndex)
      ensures Valid()
      ensures !completed && chopCount == 0 && timer == 0 && activeArea == ChopAreas[pick]
    {
      completed := false;
      chopCount := 0;
      requiredChops := RequiredChops;
      chopAreas := ChopAreas;
      activeArea := ChopAreas[pick];
      timer := 0;
    }

    /**
     * The state `HandleEvent(e, pick)` leaves: a chop counts once and moves
     * the target to the picked zone, and a chop reaching ten completes the
     * game. Any other event changes nothing.
     */
    twostate predicate Handled(e: Event, pick: AreaIndex)
      reads this
    {
      var hit := IsChop(e, old(activeArea));
      chopCount == old(chopCount) + (if hit then 1 else 0) &&
      activeArea == (if hit then ChopAreas[pick] else old(activeArea)) &&
      timer == old(timer) &&
      completed == (old(completed) || (hit && chopCount >= RequiredChops))
    }

    /** A chop that reaches ten is reported as "completed". */
    method HandleEvent(e: Event, pick: AreaIndex) returns (result: Option<Signal>)
      requires Valid()
      modifies this
      ensures Valid() && Handled(e, pick)
      ensures result == if IsChop(e, old(activeArea)) && chopCount >= RequiredChops then Some(Completed) else None
      ensures old(completed) ==> completed
      ensures completed != old(completed) <==> IsChop(e, old(activeArea)) && chopCount == RequiredChops
    {
      result := None;
      if e.kind == MouseButtonDown {
        if CollidePoint(activeArea, e.pos) {
          chopCount := chopCount + 1;
          activeArea := chopAreas[pick];
          if chopCount >= requiredChops {
            completed := true;
            result := Some(Completed);
          }
        }
      }
    }

    /** One frame: the counter advances, and past 60 it resets and the target moves. */
    method Update(pick: AreaIndex)
      requires Valid()
      modifies this
      ensures Valid()
      ensures timer == ChopTick(old(timer))
      ensures old(timer) < RelocateAfter ==> timer == old(timer) + 1 && activeArea == old(activeArea)
      ensures old(timer) == RelocateAfter ==> timer == 0 && activeArea == ChopAreas[pick]
      ensures chopCount == old(chopCount) && completed == old(completed)
    {
      timer := timer + 1;
      if timer > RelocateAfter {
        activeArea := chopAreas[pick];
        timer := 0;
      }
    }

    method IsCompleted() returns (done: bool)
      requires Valid()
      ensures done == completed
      ensures done <==> chopCount >= RequiredChops
    {
      done := completed;
    }
  }

  // ---------------------------------------------------------------------------
  // Mixing

  const RequiredMixes := 15

  /** The bowl's bounding rectangle and the centre angles are measured from. */
  const Bowl := Rect(300, 200, 200, 200)
  const BowlCenter := Point(400, 300)

  /** An angle change must exceed this to count as a stir. */
  const StirThreshold: real := 10.0

  datatype Direction = Clockwise | Counterclockwise

  function Abs(r: real): real {
    if r < 0.0 then -r else r
  }

  /** The pointer moved far enough round the bowl to be looked at. */
  predicate Turned(before: real, after: real) {
    Abs(after - before) > StirThreshold
  }

  /** The raw angles changed in the configured direction (no wrap-around handling). */
  predicate InDirection(dir: Direction, before: real, after: real) {
    (dir == Clockwise && after < before) || (dir == Counterclockwise && after > before)
  }

  class MixingGame {
    var completed: bool
    var mixCount: int
    const requiredMixes: int
    const mixDirection: Direction
    var lastPos: Option<Point>
    const bowlRect: Rect
    const center: Point
    /** `Vector2(dx, dy).angle_to((1, 0))`, left uninterpreted. */
    const angleTo: (int, int) -> real

    ghost predicate Valid()
      reads this
    {
      requiredMixes == RequiredMixes && bowlRect == Bowl && center == BowlCenter &&
      0 <= mixCount && (completed <==> mixCount >= requiredMixes)
    }

    constructor (angleTo: (int, int) -> real)
      ensures Valid()
      ensures !completed && mixCount == 0 && lastPos == None
      ensures mixDirection == Clockwise && this.angleTo == angleTo
    {
      completed := false;
      mixCount := 0;
      requiredMixes := RequiredMixes;
      mixDirection := Clockwise;
      lastPos := None;
      bowlRect := Bowl;
      center := BowlCenter;
      this.angleTo := angleTo;
    }

    /** The angle of `p` seen from the bowl's centre. */
    function AngleOf(p: Point): real {
      angleTo(p.x - center.x, p.y - center.y)
    }

    /** A motion with the button held and the pointer inside the bowl. */
    predicate Qualifies(e: Event, held: bool, pointer: Point) {
      e.kind == MouseMotion && held && CollidePoint(bowlRect, pointer)
    }

    /** A qualifying motion far enough round the bowl from the recorded position. */
    predicate Turns(e: Event, held: bool, pointer: Point)
      reads this
    {
      Qualifies(e, held, pointer) && lastPos.Some? && Turned(AngleOf(lastPos.value), AngleOf(pointer))
    }

    /** A turn in the configured direction: one stir. */
    predicate Stirs(e: Event, held: bool, pointer: Point)
      reads this
    {
      Turns(e, held, pointer) && InDirection(mixDirection, AngleOf(lastPos.value), AngleOf(pointer))
    }

    /**
     * The state `HandleEvent(e, held, pointer)` leaves. A qualifying motion
     * compares the angles of the previous and the current pointer position: a
     * large enough change counts one stir if it goes the configured way, and
     * a turn that leaves fifteen stirs completes the game without recording
     * the position. Otherwise a qualifying motion records the position, so
     * the first one after construction or after a button-up only records it.
     */
    twostate predicate Handled(e: Event, held: bool, pointer: Point)
      reads this
    {
      var done := old(Turns(e, held, pointer)) && mixCount >= RequiredMixes;
      mixCount == old(mixCount) + (if old(Stirs(e, held, pointer)) then 1 else 0) &&
      completed == (old(completed) || done) &&
      lastPos ==
        (if e.kind == MouseButtonUp then None
         else if Qualifies(e, held, pointer) && !done then Some(pointer)
         else old(lastPos))
    }

    /**
     * A turn that leaves fifteen stirs is reported as "completed". `held`
     * and `pointer` are the global mouse state the handler reads instead of
     * the event's own fields.
     */
    method HandleEvent(e: Event, held: bool, pointer: Point) returns (result: Option<Signal>)
      requires Valid()
      modifies this
      ensures Valid() && Handled(e, held, pointer)
      ensures result == (if old(Turns(e, held, pointer)) && mixCount >= RequiredMixes then Some(Completed) else None)
      ensures old(lastPos).None? ==> mixCount == old(mixCount) && result == None
    {
      result := None;
      if e.kind == MouseMotion && held {
        var pos := pointer;
        if CollidePoint(bowlRect, pos) {
          if lastPos.Some? {
            var angle1 := AngleOf(lastPos.value);
            var angle2 := AngleOf(pos);
            if Abs(angle2 - angle1) > StirThreshold {
              if mixDirection == Clockwise && angle2 < angle1 {
                mixCount := mixCount + 1;
              } else if mixDirection == Counterclockwise && angle2 > angle1 {
                mixCount := mixCount + 1;
              }
              if mixCount >= requiredMixes {
                completed := true;
                return Some(Completed);
              }
            }
          }
          lastPos := Some(pos);
        }
      }
      if e.kind == MouseButtonUp {
        lastPos := None;
      }
    }

    method IsCompleted() returns (done: bool)
      requires Valid()
      ensures done == completed
      ensures done <==> mixCount >= RequiredMixes
    {
      done := completed;
    }
  }

  // ---------------------------------------------------------------------------
  // Serving

  const Plate := Rect(300, 400, 200, 50)
  const Pot := Rect(300, 150, 200, 100)
  /** Where the food starts, inside the pot. */
  const FoodStart := Rect(350, 175, 100, 50)

  /** Ten seconds at 60 frames per second. */
  const TimeLimit := 10 * 60

  /** Seconds shown on screen: `max(0, (time_limit - timer) // 60)`. */
  function TimeLeft(timer: nat): (seconds: int)
    ensures 0 <= seconds <= 10
    ensures seconds == 0 <==> timer > TimeLimit - 60
    ensures seconds <= 3 <==> timer > TimeLimit - 4 * 60
  {
    var left := (TimeLimit - timer) / 60;
    if left < 0 then 0 else left
  }

  /** The time is drawn in the warning colour at three seconds or less. */
  predicate ShowsWarning(timer: nat) {
    TimeLeft(timer) <= 3
  }

  /** Dropping food of the shipped size is a success exactly at these pointer positions. */
  lemma DropOnPlateExactly(p: Point)
    ensures Contains(Plate, WithCenter(FoodStart, p)) <==> 350 <= p.x <= 450 && p.y == 425
  {
  }

  /** Plate and food are both 50 high, so a served food's top edge is the plate's. */
  lemma ServedFoodSitsOnPlateTop(food: Rect)
    requires food.h == Plate.h && Contains(Plate, food)
    ensures food.y == Plate.y
  {
  }

  class ServingGame {
    var completed: bool
    const plateRect: Rect
    const potRect: Rect
    var foodRect: Rect
    var dragging: bool
    var served: bool
    const timeLimit: int
    var timer: int

    /**
     * The food keeps its size, serving implies completion, and a game
     * completes only by serving or by running out of time.
     */
    ghost predicate Valid()
      reads this
    {
      plateRect == Plate && potRect == Pot && timeLimit == TimeLimit &&
      foodRect.w == FoodStart.w && foodRect.h == FoodStart.h &&
      0 <= timer && (served ==> completed) && (completed ==> served || timer >= TimeLimit)
    }

    constructor ()
      ensures Valid()
      ensures !completed && foodRect == FoodStart && !dragging && !served && timer == 0
    {
      completed := false;
      plateRect := Plate;
      potRect := Pot;
      foodRect := FoodStart;
      dragging := false;
      served := false;
      timeLimit := TimeLimit;
      timer := 0;
    }

    /**
     * The state `HandleEvent(e)` leaves. Pressing on the food starts a drag,
     * motion while dragging moves the food under the pointer, and releasing
     * always stops the drag: the food is served, and the game completed, if
     * it lies wholly on the plate, and otherwise it stays where it is.
     */
    twostate predicate Handled(e: Event)
      reads this
    {
      var landed := e.kind == MouseButtonUp && Contains(Plate, old(foodRect));
      timer == old(timer) &&
      dragging ==
        (if e.kind == MouseButtonDown then old(dragging) || CollidePoint(old(foodRect), e.pos)
         else if e.kind == MouseButtonUp then false
         else old(dragging)) &&
      foodRect ==
        (if e.kind == MouseMotion && old(dragging) then Rect(e.pos.x - 50, e.pos.y - 25, 100, 50)
         else old(foodRect)) &&
      served == (old(served) || landed) && completed == (old(completed) || landed)
    }

    /** A release over the plate is reported as "completed". */
    method HandleEvent(e: Event) returns (result: Option<Signal>)
      requires Valid()
      modifies this
      ensures Valid() && Handled(e)
      ensures result == if e.kind == MouseButtonUp && Contains(Plate, old(foodRect)) then Some(Completed) else None
      ensures e.kind == MouseMotion && old(dragging) ==> Center(foodRect) == e.pos
    {
      result := None;
      if e.kind == MouseButtonDown {
        if CollidePoint(foodRect, e.pos) {
          dragging := true;
        }
      } else if e.kind == MouseMotion {
        if dragging {
          foodRect := WithCenter(foodRect, e.pos);
        }
      } else if e.kind == MouseButtonUp {
        dragging := false;
        if Contains(plateRect, foodRect) {
          served := true;
          completed := true;
          result := Some(Completed);
        }
      }
    }

    /**
     * One frame: the timer advances; the first frame at or past the limit
     * without a completion ends the game as a timeout, which is reported once
     * and never marks the food served.
     */
    method Update() returns (result: Option<Signal>)
      requires Valid()
      modifies this
      ensures Valid()
      ensures timer == old(timer) + 1
      ensures result == if timer >= TimeLimit && !old(completed) then Some(Timeout) else None
      ensures completed == (old(completed) || timer >= TimeLimit)
      ensures served == old(served) && foodRect == old(foodRect) && dragging == old(dragging)
    {
      result := None;
      timer := timer + 1;
      if timer >= timeLimit && !completed {
        completed := true;
        result := Some(Timeout);
      }
    }

    method IsCompleted() returns (done: bool)
      requires Valid()
      ensures done == completed
      ensures served ==> done
      ensures done && !served ==> timer >= TimeLimit
    {
      done := completed;
    }
  }
}
