/** BotBash.Core/Bot.cs: the test bot, which acts at random. */
module Bots {
  import opened Wrappers
  import opened Coordinates
  import A = Actions

  /** `TestBot`'s state. No operation of the core reads or updates these fields after construction. */
  class TestBot {
    var position: Coordinate
    var vision: int
    var scanCooldown: int
    var lungeCooldown: int

    /** The implicit parameterless constructor: every property starts at its default value. */
    constructor ()
      ensures position == Zero && vision == 0 && scanCooldown == 0 && lungeCooldown == 0
    {
      position := Zero;
      vision := 0;
      scanCooldown := 0;
      lungeCooldown := 0;
    }
  }

  /** The four directions `RandomAction` draws from, in the order of the C# array. */
  const Directions: seq<Coordinate> := [Coordinate(1, 0), Coordinate(-1, 0), Coordinate(0, 1), Coordinate(0, -1)]

  /** `TestBot.Move(direction)`: the action constructor decides whether the vector is allowed. */
  function Move(direction: Coordinate): (r: Result<A.Action, A.ActionError>)
    ensures r.Ok? <==> IsUnit(direction)
    ensures r.Ok? ==> r.value == A.Action(A.ActionType.Move, direction)
    ensures r.Err? ==> r.error == if A.Overflows(direction) then A.AbsOverflow else A.DirectionNotUnit
  {
    A.NewAction(A.ActionType.Move, Some(direction))
  }

  function Bash(direction: Coordinate): (r: Result<A.Action, A.ActionError>)
    ensures r.Ok? <==> IsUnit(direction)
    ensures r.Ok? ==> r.value == A.Action(A.ActionType.Bash, direction)
    ensures r.Err? ==> r.error == if A.Overflows(direction) then A.AbsOverflow else A.DirectionNotUnit
  {
    A.NewAction(A.ActionType.Bash, Some(direction))
  }

  function Lunge(direction: Coordinate): (r: Result<A.Action, A.ActionError>)
    ensures r.Ok? <==> IsUnit(direction)
    ensures r.Ok? ==> r.value == A.Action(A.ActionType.Lunge, direction)
    ensures r.Err? ==> r.error == if A.Overflows(direction) then A.AbsOverflow else A.DirectionNotUnit
  {
    A.NewAction(A.ActionType.Lunge, Some(direction))
  }

  function Scan(): (r: Result<A.Action, A.ActionError>)
    ensures r == Ok(A.Action(A.ActionType.Scan, Zero))
  {
    A.NewAction(A.ActionType.Scan, Some(Coordinate(0, 0)))
  }

  function Wait(): (r: Result<A.Action, A.ActionError>)
    ensures r == Ok(A.Action(A.ActionType.Wait, Zero))
  {
    A.NewAction(A.ActionType.Wait, Some(Coordinate(0, 0)))
  }

  /** The action type `RandomAction` picks for a drawn value; values outside 1..5 give Wait. */
  function KindFor(value: int): (kind: A.ActionType)
    ensures 1 <= value <= 5 ==>
              kind == [A.ActionType.Move, A.ActionType.Bash, A.ActionType.Lunge, A.ActionType.Scan, A.ActionType.Wait][value - 1]
    ensures !(1 <= value <= 4) ==> kind == A.ActionType.Wait
  {
    if value == 1 then A.ActionType.Move
    else if value == 2 then A.ActionType.Bash
    else if value == 3 then A.ActionType.Lunge
    else if value == 4 then A.ActionType.Scan
    else A.ActionType.Wait
  }

  /** `RandomAction`, with its two draws as parameters: `value` (the generator gives 1..5) and
      `pick`, an index into `Directions` (the generator gives 0..3). It never fails. */
  function RandomAction(value: int, pick: nat): (a: A.Action)
    requires pick < |Directions|
    ensures A.ValidAction(a)
    ensures a.kind == KindFor(value)
    ensures A.NeedsDirection(a.kind) ==> a.direction == Directions[pick]
  {
    var direction := Directions[pick];
    var r :=
      match value
      case 1 => Move(direction)
      case 2 => Bash(direction)
      case 3 => Lunge(direction)
      case 4 => Scan()
      case 5 => Wait()
      case _ => Wait();
    r.value
  }

  /** Every valid action is drawn for some pair of draws in the generator's ranges. */
  lemma RandomActionReachesEveryValidAction(a: A.Action)
    requires A.ValidAction(a)
    ensures exists value, pick :: 1 <= value <= 5 && 0 <= pick < |Directions| && RandomAction(value, pick) == a
  {
    var value :=
      match a.kind
      case Move => 1
      case Bash => 2
      case Lunge => 3
      case Scan => 4
      case Wait => 5;
    var pick :=
      if a.direction == Coordinate(1, 0) then 0
      else if a.direction == Coordinate(-1, 0) then 1
      else if a.direction == Coordinate(0, 1) then 2
      else if a.direction == Coordinate(0, -1) then 3
      else 0;
    assert RandomAction(value, pick) == a;
  }

  /** `RunLogic`: the test bot ignores what it can see and acts at random. */
  function RunLogic(visibleArea: set<Coordinate>, value: int, pick: nat): (a: A.Action)
    requires pick < |Directions|
    ensures A.ValidAction(a)
    ensures a.kind == KindFor(value)
    ensures A.NeedsDirection(a.kind) ==> a.direction == Directions[pick]
  {
    RandomAction(value, pick)
  }

  /** What the bot sees has no influence on its decision. */
  lemma RunLogicIgnoresVisibleArea(seen: set<Coordinate>, other: set<Coordinate>, value: int, pick: nat)
    requires pick < |Directions|
    ensures RunLogic(seen, value, pick) == RunLogic(other, value, pick)
  {
  }
}
