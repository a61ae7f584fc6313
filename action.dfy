/** BotBash.Core/Action.cs: what a bot has decided to do this turn. */
module Actions {
  import opened Wrappers
  import opened Coordinates

  datatype ActionType = Move | Bash | Lunge | Scan | Wait

  /** A successfully constructed `Action`: its type and its (always present) direction. */
  datatype Action = Action(kind: ActionType, direction: Coordinate)

  /** The exceptions the constructor can throw: its two `ArgumentException`s, and the
      `OverflowException` of `Math.Abs` applied to the most negative 32-bit integer. */
  datatype ActionError =
    | DirectionNotUnit   // "Direction must be one of (1,0), (-1,0), (0,1), (0,-1)"
    | DirectionMissing   // "This actiontype needs a direction"
    | AbsOverflow

  /** `int.MinValue`, the one 32-bit integer whose absolute value is not a 32-bit integer. */
  const IntMin := -0x8000_0000

  /** A direction on which the unit-vector test throws: `Math.Abs` is always applied to x, and
      to y whenever the x-test does not already succeed, which it cannot when y is `IntMin`. */
  predicate Overflows(d: Coordinate)
  {
    d.x == IntMin || d.y == IntMin
  }

  /** Move, Bash and Lunge need a direction; Scan and Wait ignore theirs. */
  predicate NeedsDirection(kind: ActionType)
  {
    kind == Move || kind == Bash || kind == Lunge
  }

  /** Every action the constructor lets through: the zero vector exactly for Scan and Wait,
      a unit axis vector otherwise. */
  predicate ValidAction(a: Action)
  {
    (a.direction == Zero <==> !NeedsDirection(a.kind)) &&
    (NeedsDirection(a.kind) ==> IsUnit(a.direction))
  }

  /** The validating constructor `Action(type, direction)`. */
  function NewAction(kind: ActionType, direction: Option<Coordinate>): (r: Result<Action, ActionError>)
    ensures r.Ok? ==> r.value.kind == kind && ValidAction(r.value)
    ensures !NeedsDirection(kind) ==> r == Ok(Action(kind, Zero))
    ensures NeedsDirection(kind) && direction.None? ==> r == Err(DirectionMissing)
    ensures NeedsDirection(kind) && direction.Some? ==>
              r == if IsUnit(direction.value) then Ok(Action(kind, direction.value))
                   else if Overflows(direction.value) then Err(AbsOverflow)
                   else Err(DirectionNotUnit)
  {
    if kind == Scan || kind == Wait then
      Ok(Action(kind, Coordinate(0, 0)))
    else if direction.Some? then
      var x, y := direction.value.x, direction.value.y;
      // The test `(Abs(x) == 1 && y == 0) || (Abs(y) == 1 && x == 0)`, evaluated left to right.
      if x == IntMin then Err(AbsOverflow)
      else if Abs(x) == 1 && y == 0 then Ok(Action(kind, direction.value))
      else if y == IntMin then Err(AbsOverflow)
      else if Abs(y) == 1 && x == 0 then Ok(Action(kind, direction.value))
      else Err(DirectionNotUnit)
    else
      Err(DirectionMissing)
  }

  /** Every valid action can be built, and building it gives it back unchanged. */
  lemma ValidActionsAreConstructible(a: Action)
    requires ValidAction(a)
    ensures NewAction(a.kind, Some(a.direction)) == Ok(a)
  {
  }
}
