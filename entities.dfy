/** BotBash.Core/Entities.cs: what occupies the ground of a cell. */
module Entities {
  import opened Wrappers

  /** The tile kinds. `Danger` is used by the engine (a warning that becomes Spike on the next
      hazard step) although Entities.cs does not declare it. The C# kinds are stateless classes,
      so one constructor per kind captures all of them: two values of a kind are always equal. */
  datatype Tile = Empty | Wall | Danger | Spike

  /** The exceptions `OnEnter` throws. */
  datatype EnterError = NotImplemented | Refused(message: string)

  const WallMessage := "You shouldn't move onto walls"

  function CreateEmpty(): (t: Tile)
    ensures t.Empty?
  {
    Empty
  }

  function CreateWall(): (t: Tile)
    ensures t.Wall?
  {
    Wall
  }

  function CreateSpike(): (t: Tile)
    ensures t.Spike?
  {
    Spike
  }

  function CreateDanger(): (t: Tile)
    ensures t.Danger?
  {
    Danger
  }

  /** `OnEnter` never succeeds: entering a wall is refused with a message, the other kinds are
      not implemented. */
  function OnEnter(t: Tile): (o: Outcome<EnterError>)
    ensures o.Fail?
    ensures o.error.Refused? <==> t == Wall
    ensures t == Wall ==> o.error.message == WallMessage
  {
    match t
    case Wall => Fail(Refused(WallMessage))
    case _ => Fail(NotImplemented)
  }

  /** Stateless kinds: any two values built by the same factory are interchangeable. */
  lemma KindsAreStateless(a: Tile, b: Tile)
    requires a.Empty? == b.Empty? && a.Wall? == b.Wall? && a.Danger? == b.Danger?
    ensures a == b
  {
  }
}
