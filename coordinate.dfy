/** BotBash.Core/Coordinate.cs: a board position or a direction vector. */
module Coordinates {

  /** The record struct `Coordinate`; also stands for the `(int x, int y)` tuples of the C# code.
      Equality of a datatype is structural, as for a C# record struct. */
  datatype Coordinate = Coordinate(x: int, y: int)

  /** The zero vector, the direction stored for Scan and Wait. */
  const Zero := Coordinate(0, 0)

  /** `operator +`: component-wise addition, which moves `a` by the vector `b`. */
  function Plus(a: Coordinate, b: Coordinate): (c: Coordinate)
    ensures c.x - a.x == b.x && c.y - a.y == b.y
  {
    Coordinate(a.x + b.x, a.y + b.y)
  }

  /** The positions listed in a sequence. */
  function Elems(s: seq<Coordinate>): set<Coordinate>
  {
    set c | c in s
  }

  function Negate(d: Coordinate): Coordinate
  {
    Coordinate(-d.x, -d.y)
  }

  function Abs(n: int): nat
  {
    if n < 0 then -n else n
  }

  /** Number of axis-aligned unit steps between two positions. */
  function Manhattan(a: Coordinate, b: Coordinate): nat
  {
    Abs(a.x - b.x) + Abs(a.y - b.y)
  }

  /** The four axis-aligned unit vectors, the only directions an action may carry. */
  predicate IsUnit(d: Coordinate)
  {
    d == Coordinate(1, 0) || d == Coordinate(-1, 0) || d == Coordinate(0, 1) || d == Coordinate(0, -1)
  }

  /** The constructor stores both components unchanged, and two coordinates are equal
      exactly when both components are. */
  lemma EqualityByValue(a: Coordinate, b: Coordinate)
    ensures a == b <==> a.x == b.x && a.y == b.y
    ensures Coordinate(a.x, a.y) == a
  {
  }

  /** `a + b` adds the components. */
  lemma PlusComponents(a: Coordinate, b: Coordinate)
    ensures Plus(a, b).x == a.x + b.x && Plus(a, b).y == a.y + b.y
  {
  }

  lemma PlusCommutative(a: Coordinate, b: Coordinate)
    ensures Plus(a, b) == Plus(b, a)
  {
  }

  lemma PlusAssociative(a: Coordinate, b: Coordinate, c: Coordinate)
    ensures Plus(Plus(a, b), c) == Plus(a, Plus(b, c))
  {
  }

  lemma PlusIdentity(a: Coordinate)
    ensures Plus(a, Zero) == a && Plus(Zero, a) == a
  {
  }

  /** Adding a vector and then its negation returns to the start. */
  lemma PlusNegate(a: Coordinate, d: Coordinate)
    ensures Plus(Plus(a, d), Negate(d)) == a
  {
  }
}
