/** BotBash.Core/BotAction.cs: building actions from named directions. */
module BotActions {
  import opened Wrappers
  import opened Coordinates
  import A = Actions

  datatype Direction = Up | Down | Left | Right

  /** `Translate`: the screen convention puts Up at negative y. (The C# default arm is
      unreachable for the four enum values and has no counterpart here.) */
  function Translate(direction: Direction): (v: Coordinate)
    ensures IsUnit(v)
  {
    match direction
    case Up => Coordinate(0, -1)
    case Down => Coordinate(0, 1)
    case Left => Coordinate(-1, 0)
    case Right => Coordinate(1, 0)
  }

  function Opposite(direction: Direction): Direction
  {
    match direction
    case Up => Down
    case Down => Up
    case Left => Right
    case Right => Left
  }

  /** The translation table, one entry per name. */
  lemma TranslateTable()
    ensures Translate(Up) == Coordinate(0, -1) && Translate(Down) == Coordinate(0, 1)
    ensures Translate(Left) == Coordinate(-1, 0) && Translate(Right) == Coordinate(1, 0)
  {
  }

  /** Different names give different vectors, and every unit vector has a name. */
  lemma TranslateBijective(a: Direction, b: Direction, v: Coordinate)
    ensures Translate(a) == Translate(b) ==> a == b
    ensures IsUnit(v) ==> exists d :: Translate(d) == v
  {
    if IsUnit(v) {
      var d :=
        if v == Coordinate(0, -1) then Up
        else if v == Coordinate(0, 1) then Down
        else if v == Coordinate(-1, 0) then Left
        else Right;
      assert Translate(d) == v;
    }
  }

  /** Opposite names give opposite vectors. */
  lemma TranslateOpposite(direction: Direction)
    ensures Translate(Opposite(direction)) == Negate(Translate(direction))
  {
  }

  /** Builds a directional action from a name; the constructor never rejects it. */
  function Directed(kind: A.ActionType, direction: Direction): (a: A.Action)
    requires A.NeedsDirection(kind)
    ensures a == A.Action(kind, Translate(direction)) && A.ValidAction(a)
  {
    var built := A.NewAction(kind, Some(Translate(direction)));
    assert built.Ok?;
    built.value
  }

  function Move(direction: Direction): (a: A.Action)
    ensures a.kind == A.ActionType.Move && a.direction == Translate(direction) && A.ValidAction(a)
  {
    Directed(A.ActionType.Move, direction)
  }

  function Bash(direction: Direction): (a: A.Action)
    ensures a.kind == A.ActionType.Bash && a.direction == Translate(direction) && A.ValidAction(a)
  {
    Directed(A.ActionType.Bash, direction)
  }

  function Lunge(direction: Direction): (a: A.Action)
    ensures a.kind == A.ActionType.Lunge && a.direction == Translate(direction) && A.ValidAction(a)
  {
    Directed(A.ActionType.Lunge, direction)
  }

  function Scan(): (a: A.Action)
    ensures a == A.Action(A.ActionType.Scan, Zero) && A.ValidAction(a)
  {
    A.NewAction(A.ActionType.Scan, Some(Coordinate(0, 0))).value
  }

  function Wait(): (a: A.Action)
    ensures a == A.Action(A.ActionType.Wait, Zero) && A.ValidAction(a)
  {
    A.NewAction(A.ActionType.Wait, Some(Coordinate(0, 0))).value
  }
}
