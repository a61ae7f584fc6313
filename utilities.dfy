/** BotBash.Core/Utilities.cs: the tuple `Add` extension. */
module Utilities {
  import opened Coordinates

  /** `tuple1.Add(tuple2)`: moves a position by a direction vector. */
  function Add(position: Coordinate, move: Coordinate): (moved: Coordinate)
    ensures Manhattan(position, moved) == Abs(move.x) + Abs(move.y)
    ensures moved.x - position.x == move.x && moved.y - position.y == move.y
  {
    Coordinate(position.x + move.x, position.y + move.y)
  }

  /** The tuple extension and `Coordinate.operator +` compute the same thing. */
  lemma AddAgreesWithPlus(position: Coordinate, move: Coordinate)
    ensures Add(position, move) == Plus(position, move)
  {
  }

  /** Adding the zero vector leaves a position where it is. */
  lemma AddZero(position: Coordinate)
    ensures Add(position, Zero) == position
  {
  }

  /** A unit step changes exactly one component, by one, and stepping back undoes it. */
  lemma AddUnitStep(position: Coordinate, move: Coordinate)
    requires IsUnit(move)
    ensures Manhattan(position, Add(position, move)) == 1
    ensures (Add(position, move).x == position.x) != (Add(position, move).y == position.y)
    ensures Add(Add(position, move), Negate(move)) == position
  {
  }
}
