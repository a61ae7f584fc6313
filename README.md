# BotBash core in Dafny

BotBash is a turn-based game: bots stand on a rectangular board of cells and pick actions
(move, bash, lunge, scan, wait). Some cells are walls that block sight. An engine slowly fills
the board with hazards: it warns of danger on some free cells and later turns them into spikes.
This project models the game core (`BotBash.Core`) in Dafny and proves what the code
promises about it:

- **Board** (`Worlds.World`): a class holding the width, height and a map from position to
  `Cells.Cell` object.
  - `InitialiseRandom` fills the board with fresh, unoccupied cells, each Wall or Empty.
  - `CastLine` is the Bresenham ray loop.
  - `GetVisibleArea` casts a ray to every cell on the edge of the view diamond. This misses
    some cells inside the diamond (see "## Findings").
  - Both methods are proved against pure definitions in `LineOfSight`:
    - `Path` is the full Bresenham line.
    - `Sight` is the part of a line a bot sees: it is cut at the first off-board cell and
      after the first wall.
    - `VisibleArea` is the union of the rays, column by column.
- **Hazard step** (`Engines.Engine.WorldEdits`): a countdown; warned (Danger) cells become
  spikes. Every fifth call warns of some empty, unoccupied cells: as many as a tenth of all
  the board's cells (`Layout.Count / 10`), or every such cell when there are fewer. The
  method is proved against `Hazards.Hazard`, a function on a plain map from position to
  tile, and the rules of the game are proved about that function.
- **Actions**:
  - `Actions.NewAction` is the validating `Action` constructor.
  - `BotActions` holds `Translate` and the factories built on it.
  - `Bots` holds the test bot's factories, its random action picker and `RunLogic`.
- **Small values**:
  - `Coordinates.Coordinate` and its addition.
  - The tuple `Add` extension (`Utilities.Add`).
  - The tile kinds (`Entities.Tile`).
  - The mutable `Cells.Cell`.

Coordinates are counted from 0, as the code builds them (`Enumerable.Range(0, Width)`). The
browser pages draw the board counting from 1 (BotBash.Server/wwwroot/js/game.js:91-92 and
BotBash.Server/wwwroot/js/manual.js:81-82); the model follows the core's code.

The contracts of the three stateful operations rest on pure definitions, each modelling
these source lines:
- `LineOfSight.Path`: the cells the loop of World.cs:61-87 visits when nothing stops it.
- `LineOfSight.Sight`: the cut made by the off-board test of World.cs:64 and the wall test
  of World.cs:69.
- `LineOfSight.RaySet`: the set `CastLine` (World.cs:48-88) adds, computed one loop
  iteration per call.
- `Hazards.Painted`: the tile assignment of one `foreach` (Engine.cs:35-38, 48-51).
- `Hazards.Chosen`: the cells taken at Engine.cs:43-46 on a warning call, none otherwise.
- `Hazards.Hazard`: the whole board edit of Engine.cs:33-51.

The random draws become parameters:
- the die roll of each cell (`roll`);
- the action value and the direction index (`value`, `pick`);
- the Guid ordering of the candidate cells (`order`, required to list each candidate exactly
  once).

## Model

| member | source | states |
|---|---|---|
| Coordinates.EqualityByValue | BotBash.Core/Coordinate.cs:6-14 | two coordinates are equal exactly when both components are; the constructor stores x and y unchanged |
| Coordinates.Plus | BotBash.Core/Coordinate.cs:16-19 | `a + b` is `a` moved by the vector `b`; the algebra of the operator is stated by the five `Plus` lemmas below |
| Coordinates.PlusComponents | BotBash.Core/Coordinate.cs:16-19 | `a + b` is (a.X + b.X, a.Y + b.Y) |
| Coordinates.PlusCommutative | BotBash.Core/Coordinate.cs:16-19 | addition is commutative |
| Coordinates.PlusAssociative | BotBash.Core/Coordinate.cs:16-19 | addition is associative |
| Coordinates.PlusIdentity | BotBash.Core/Coordinate.cs:16-19 | (0,0) is a left and right identity |
| Coordinates.PlusNegate | BotBash.Core/Coordinate.cs:16-19 | adding a vector and then its negation gives back the start |
| Utilities.Add | BotBash.Core/Utilities.cs:6-7 | the moved position differs from the start by exactly the move on each axis, so it lies |move.x| + |move.y| steps away |
| Utilities.AddAgreesWithPlus | BotBash.Core/Utilities.cs:6-7 | the tuple `Add` extension equals `Coordinate` addition on the same pairs |
| Utilities.AddZero | BotBash.Core/Utilities.cs:6-7 | adding (0,0) leaves a position unchanged |
| Utilities.AddUnitStep | BotBash.Core/Utilities.cs:6-7 | adding a unit axis vector moves one Manhattan step, changes exactly one component, and adding its negation undoes it |
| Entities.CreateEmpty | BotBash.Core/Entities.cs:13 | `Empty.Create` gives an Empty tile |
| Entities.CreateWall | BotBash.Core/Entities.cs:24 | `Wall.Create` gives a Wall tile |
| Entities.CreateSpike | BotBash.Core/Entities.cs:33 | `Spike.Create` gives a Spike tile |
| Entities.CreateDanger | BotBash.Core/Engine.cs:50 | `Danger.Create` gives a Danger tile |
| Entities.OnEnter | BotBash.Core/Entities.cs:15-38 | entering any tile fails; the failure is the wall refusal, with the wall message, exactly for a Wall, and "not implemented" otherwise |
| Entities.KindsAreStateless | BotBash.Core/Entities.cs:11-38 | tiles of the same kind are equal: the kinds carry no state |
| Actions.NewAction | BotBash.Core/Action.cs:18-39 | the type is stored; Scan and Wait always get (0,0); Move, Bash and Lunge with no direction fail with "needs a direction"; with a direction they succeed exactly for the four unit axis vectors, storing it unchanged; otherwise they fail with the overflow of `Math.Abs` when a component is `int.MinValue`, and with "must be one of" for any other vector; every success is a valid action |
| Actions.ValidActionsAreConstructible | BotBash.Core/Action.cs:22-38 | every valid action is what the constructor builds from its own type and direction, so the valid actions are exactly the constructor's results |
| BotActions.Translate | BotBash.Core/BotAction.cs:14-24 | every direction maps to a unit axis vector, so the factories never reach the constructor's error |
| BotActions.TranslateTable | BotBash.Core/BotAction.cs:16-22 | Up→(0,-1), Down→(0,1), Left→(-1,0), Right→(1,0) |
| BotActions.TranslateBijective | BotBash.Core/BotAction.cs:18-21 | `Translate` is injective, and every unit axis vector is the image of some direction |
| BotActions.TranslateOpposite | BotBash.Core/BotAction.cs:18-21 | opposite directions translate to negated vectors |
| BotActions.Directed | BotBash.Core/BotAction.cs:25-38 | a directed factory builds a valid action of its type with the translated direction |
| BotActions.Move | BotBash.Core/BotAction.cs:25-28 | a valid Move action in the translated direction |
| BotActions.Bash | BotBash.Core/BotAction.cs:30-33 | a valid Bash action in the translated direction |
| BotActions.Lunge | BotBash.Core/BotAction.cs:35-38 | a valid Lunge action in the translated direction |
| BotActions.Scan | BotBash.Core/BotAction.cs:40-43 | a valid Scan action with direction (0,0) |
| BotActions.Wait | BotBash.Core/BotAction.cs:45-48 | a valid Wait action with direction (0,0) |
| Bots.Move | BotBash.Core/Bot.cs:32-35 | succeeds exactly for a unit axis vector, with a Move action in that direction; otherwise fails with the constructor's error: the `Math.Abs` overflow for a component equal to `int.MinValue`, "must be one of" for any other vector |
| Bots.Bash | BotBash.Core/Bot.cs:37-40 | succeeds exactly for a unit axis vector, with a Bash action in that direction; otherwise fails with the constructor's error: the `Math.Abs` overflow for a component equal to `int.MinValue`, "must be one of" for any other vector |
| Bots.Lunge | BotBash.Core/Bot.cs:42-45 | succeeds exactly for a unit axis vector, with a Lunge action in that direction; otherwise fails with the constructor's error: the `Math.Abs` overflow for a component equal to `int.MinValue`, "must be one of" for any other vector |
| Bots.Scan | BotBash.Core/Bot.cs:47-50 | always succeeds with a Scan action at (0,0) |
| Bots.Wait | BotBash.Core/Bot.cs:52-55 | always succeeds with a Wait action at (0,0) |
| Bots.KindFor | BotBash.Core/Bot.cs:68-82 | values 1..5 pick Move, Bash, Lunge, Scan, Wait in that order; any other value picks Wait |
| Bots.RandomAction | BotBash.Core/Bot.cs:57-83 | never fails and always yields a valid action; its type is the one picked for `value`, and a directed action uses the drawn direction |
| Bots.RandomActionReachesEveryValidAction | BotBash.Core/Bot.cs:59-65 | every valid action is drawn for some value in 1..5 and some direction index in 0..3 |
| Bots.RunLogic | BotBash.Core/Bot.cs:26-30 | yields the same action as `RandomAction`: valid, of the type picked for `value`, and in the drawn direction when the type needs one (Scan and Wait get (0,0)) |
| Bots.RunLogicIgnoresVisibleArea | BotBash.Core/Bot.cs:26-30 | the decision does not depend on the visible area |
| Bots.TestBot.constructor | BotBash.Core/Bot.cs:19-24 | the implicit constructor leaves the position at (0,0) and vision and both cooldowns at 0 |
| Cells.Cell.constructor | BotBash.Core/Cell.cs:9-13 | stores the occupant (possibly none) and the tile unchanged |
| Cells.Cell.SetConstruct | BotBash.Core/Cell.cs:7 | sets the tile and leaves the occupant unchanged |
| Cells.Cell.SetPlayer | BotBash.Core/Cell.cs:6 | sets the occupant and leaves the tile unchanged |
| Worlds.Randomise | BotBash.Core/World.cs:90-100 | always yields Wall or Empty |
| Worlds.WallRollsUpTo | BotBash.Core/World.cs:93-95 | among the rolls 1..hi-1, the number that make a wall is min(hi-1, 20) |
| Worlds.WallShare | BotBash.Core/World.cs:93-99 | a roll makes a Wall exactly when it is at most 20 and Empty otherwise; exactly 20 of the rolls 1..100 make a wall |
| Worlds.World.constructor | BotBash.Core/World.cs:10-15 | stores width and height and starts with an empty layout |
| Worlds.World.InitialiseRandom | BotBash.Core/World.cs:17-23 | fails (layout unchanged) exactly when `Enumerable.Range` would throw; on success the keys are exactly the 0-based Width x Height positions, and each cell is a fresh, distinct, unoccupied cell whose tile is `Randomise` of that position's roll |
| Worlds.World.CastLine | BotBash.Core/World.cs:48-88 | the loop terminates and adds exactly the cells of the Bresenham ray that the bot sees |
| Worlds.World.GetVisibleArea | BotBash.Core/World.cs:25-44 | the two loops produce exactly the union of the rays to the cells at Manhattan distance `viewRange` |
| LineOfSight.LaunchOnTrack | BotBash.Core/World.cs:55-59 | the set-up of distances, steps and error term satisfies the Bresenham invariant |
| LineOfSight.AdvanceGaps | BotBash.Core/World.cs:74-86 | one iteration keeps the invariant; it moves each axis by at most one toward the target and never past it; it moves at least one unit while the target is not reached |
| LineOfSight.AdvanceStep | BotBash.Core/World.cs:74-86 | one iteration moves to a different cell at most one unit away on each axis, straight towards the target: the Manhattan distance covered plus the distance left equals the distance before |
| LineOfSight.AdvanceOnTrack | BotBash.Core/World.cs:61-87 | one iteration keeps the invariant and strictly decreases the remaining distance, so the loop terminates |
| LineOfSight.ReachStep | BotBash.Core/World.cs:64-86 | from an on-board, non-wall cell other than the target, what the ray sees is that cell plus what it sees from the next one |
| LineOfSight.ReachIsSight | BotBash.Core/World.cs:61-87 | the cells the loop adds are the cells of the visible prefix of the Bresenham path |
| LineOfSight.RaySetIsRay | BotBash.Core/World.cs:48-88 | the set `CastLine` adds equals the elements of the visible ray from start to target |
| LineOfSight.PathEnds | BotBash.Core/World.cs:72 | the Bresenham path starts at the current cell, ends at the target, and has at most (remaining distance + 1) cells |
| LineOfSight.PathInBox | BotBash.Core/World.cs:57-58 | every cell of the path lies between the start and the target on both axes |
| LineOfSight.PathSteps | BotBash.Core/World.cs:74-86 | consecutive cells of the path differ, are at most one unit apart on each axis, and each step heads straight towards the target |
| LineOfSight.PathWithinReach | BotBash.Core/World.cs:55-86 | no cell of the path is farther (Manhattan) from the start than the target |
| LineOfSight.SightPrefix | BotBash.Core/World.cs:64-72 | what a ray sees is a prefix of its path |
| LineOfSight.SightStops | BotBash.Core/World.cs:64-69 | every seen cell is on the board; no seen cell except the last is a wall; if the ray is cut short, it stopped at a wall (which is seen) or at the first off-board cell |
| LineOfSight.RaySeesStart | BotBash.Core/World.cs:64-66 | a ray from an on-board start sees the start |
| LineOfSight.RayBounds | BotBash.Core/World.cs:64-66 | every seen cell is on the board and no farther from the start than the target |
| LineOfSight.RowMembers | BotBash.Core/World.cs:33-41 | a cell is in a column's rays exactly when some offset of that column on the diamond edge casts a ray that sees it |
| LineOfSight.ColumnMembers | BotBash.Core/World.cs:30-42 | a cell is in a range of columns' rays exactly when some edge offset in those columns casts a ray that sees it |
| LineOfSight.VisibleAreaMembers | BotBash.Core/World.cs:25-44 | a cell is visible exactly when some cell at distance `viewRange` casts a ray that sees it |
| LineOfSight.RowStep | BotBash.Core/World.cs:33-41 | one more iteration of the inner loop adds that offset's ray, if any |
| LineOfSight.ProbeStep | BotBash.Core/World.cs:36-40 | a ray is cast only for offsets on the diamond edge, and the inner loop's set grows by exactly that ray |
| LineOfSight.ColumnPass | BotBash.Core/World.cs:30-42 | a full run of the inner loop adds exactly the rays of that column |
| LineOfSight.ColumnsNone | BotBash.Core/World.cs:30 | an empty range of columns casts no ray |
| LineOfSight.ColumnStep | BotBash.Core/World.cs:30-42 | one more iteration of the outer loop adds that column's rays |
| LineOfSight.VisibleBounds | BotBash.Core/World.cs:30-39 | every visible cell is on the board and within Manhattan distance `viewRange` of the bot |
| LineOfSight.VisibleAreaBounds | BotBash.Core/World.cs:30-39 | the whole visible area is on the board and within the view diamond |
| LineOfSight.VisibleOrigin | BotBash.Core/World.cs:30-33 | a negative range sees nothing; a range of 0 or more sees the bot's own cell when it is on the board |
| LineOfSight.TwoStepPath | BotBash.Core/World.cs:61-87 | a cast whose second iteration reaches the target visits exactly three cells |
| LineOfSight.EdgePaths | BotBash.Core/World.cs:50-87 | the Bresenham paths from (0,0) to (2,1) and to (1,2) go through (1,0) and (0,1) |
| LineOfSight.DiagonalBox | BotBash.Core/World.cs:48-88 | a ray from (0,0) that sees (1,1) was cast to a target at least 1 away on both axes |
| LineOfSight.EdgePathsAvoidDiagonal | BotBash.Core/World.cs:48-88 | neither of the rays to (2,1) and (1,2) sees (1,1) |
| LineOfSight.DiagonalUnseen | BotBash.Core/World.cs:35-39 | with range 3 a bot never sees the cell diagonally next to it, on any board |
| LineOfSight.SightWhole | BotBash.Core/World.cs:61-87 | a ray whose path is on the board, with a wall at most at its end, sees the whole path |
| LineOfSight.VisibleAreaWithinFull | BotBash.Core/World.cs:25-44 | what the edge rays see is part of what rays to the whole diamond see |
| LineOfSight.FullBounds | BotBash.Core/World.cs:25-44 | with rays to the whole diamond, everything seen is on the board and within range |
| LineOfSight.FullSeesUnblocked | BotBash.Core/World.cs:35 | with rays to the whole diamond, every cell within range whose line from the bot is on the board and unblocked is seen |
| LineOfSight.FullSeesOpenView | BotBash.Core/World.cs:35 | with rays to the whole diamond and no walls nor edges within range, the bot sees exactly the cells within range |
| Hazards.NextCountdown | BotBash.Core/Engine.cs:32-42 | the countdown goes down by one, or is reset to 5 |
| Hazards.Amount | BotBash.Core/Engine.cs:44 | the number of cells to warn of is a tenth of the board, rounded down |
| Hazards.Candidates | BotBash.Core/Engine.cs:43 | the cells that may be warned of are cells of the board |
| Hazards.TakenOnBoard | BotBash.Core/Engine.cs:43-46 | the cells taken from a shuffle of the candidates are positions of the board |
| Hazards.CountdownInRange | BotBash.Core/Engine.cs:32-42 | a countdown in 1..5 stays in 1..5; a call warns exactly when the countdown is 1, which is when it comes back to 5 |
| Hazards.CountdownCycle | BotBash.Core/Engine.cs:8-42 | from the initial 5, the countdown after n calls is 5 - n mod 5 |
| Hazards.EveryFifthCall | BotBash.Core/Engine.cs:8-42 | the n-th call warns of new danger exactly when n is a multiple of 5 |
| Hazards.HazardKeys | BotBash.Core/Engine.cs:30-53 | a call adds and removes no position |
| Hazards.HazardCell | BotBash.Core/Engine.cs:33-51 | for every call `WorldEdits` accepts: Danger becomes Spike; Wall and Spike never change; an occupied cell is never warned; an Empty cell becomes Danger exactly when chosen and otherwise stays Empty |
| Hazards.PaintedByCell | BotBash.Core/Engine.cs:33-51 | a board that agrees at every position with painting some cells in one tile is that painting: what each of the two loops builds |
| Hazards.SpikesKeepCandidates | BotBash.Core/Engine.cs:33-46 | making the spikes first changes neither the empty, unoccupied cells nor the cells taken from their shuffle |
| Hazards.HazardDanger | BotBash.Core/Engine.cs:33-51 | for every call `WorldEdits` accepts, after the call the Danger cells are exactly the ones chosen in that call, all of them candidates, and there are none after a call that does not warn; spikes are made before warnings |
| Hazards.DistinctCount | BotBash.Core/Engine.cs:46 | a shuffle without repeats has as many distinct cells as entries |
| Hazards.PlacedCount | BotBash.Core/Engine.cs:43-46 | a warning call leaves exactly min(cells/10, number of candidates) Danger cells |
| Engines.SpikeDanger | BotBash.Core/Engine.cs:33-38 | the first loop turns exactly the Danger cells into spikes (`Spiked`) and changes no other tile, no occupant and no position |
| Engines.PlaceDanger | BotBash.Core/Engine.cs:43-51 | the second loop turns exactly the first `Layout.Count / 10` cells of the shuffle (or all of them) into Danger and changes no other tile, no occupant and no position |
| Engines.EditBoard | BotBash.Core/Engine.cs:33-51 | spikes first, then, on a warning call, the warnings: the board becomes the spiked board with the taken cells painted Danger; occupants and positions are unchanged |
| Engines.Engine.constructor | BotBash.Core/Engine.cs:8-13 | keeps the given world, starts the countdown at 5 and so establishes that the countdown lies in 1..5 |
| Engines.Engine.WorldEdits | BotBash.Core/Engine.cs:30-53 | keeps the countdown in 1..5 and makes it follow `NextCountdown`; the new board is `Hazard` of the old board, countdown and shuffle; the positions, the cell objects and every occupant are unchanged |

## Findings

| source | as written | input that shows it | evidently intended | confidence | as-written member | corrected member |
|---|---|---|---|---|---|---|
| BotBash.Core/World.cs:35-39 | rays are cast only to the cells at distance exactly `viewRange`; the comment at line 35 says the rays still cover every cell of the diamond | viewRange 3, bot at (0,0), every cell within range on the board and empty: (1,1) is 2 away, but the ray to (2,1) passes (1,0) and the ray to (1,2) passes (0,1), so (1,1) is not in the result | every cell within range whose line from the bot is unblocked is visible, as with a ray to every cell of the diamond | high (proved; not executed) | LineOfSight.DiagonalUnseen | LineOfSight.VisibleAreaFull |

`Worlds.World.GetVisibleArea` models the code as written and is proved equal to
`LineOfSight.VisibleArea`. `LineOfSight.VisibleAreaFull` is the intended area. For it,
`FullSeesUnblocked` and `FullSeesOpenView` prove the coverage the comment promises, and
`VisibleAreaWithinFull` and `FullBounds` bound it. No other operation of the core reads the
visible area (`Bots.RunLogic` ignores it), so nothing else depends on the choice.

## Left out

- `Engine.Start` and the `Playing` flag (BotBash.Core/Engine.cs:15-28): nothing ever clears the
  flag, so the loop never ends. Only one `WorldEdits` step is modelled; `CountdownCycle` and
  `EveryFifthCall` describe a run of steps.
- Randomness: `System.Random` and the Guid ordering are not modelled. Their draws are parameters.
  - `Worlds.World.InitialiseRandom` takes one roll per position.
  - `Bots.RandomAction` and `Bots.RunLogic` take `value` and `pick`.
  - `Engines.Engine.WorldEdits` takes `order`. On a warning call, `order` must list each
    candidate exactly once, as the shuffle does.
- Coordinates.Plus: C# `int` addition wraps around at 32 bits; the model uses unbounded integers.
- Utilities.Add: same 32-bit wrap-around left out as for `Plus`.
- Worlds.World.CastLine: `Math.Abs` of `int.MinValue` throwing, and `2 * errorTerm` overflowing, are
  not modelled; integers are unbounded.
  - The `HashSet` that C# updates in place is modelled as a set value. The method returns the old
    set plus the new cells.
- Worlds.World.GetVisibleArea: offsets near the 32-bit limits are not modelled; integers are
  unbounded.
- Engines.Engine.WorldEdits: the countdown is worked out in a local variable and written to the
  field once, after the board edits, instead of being decremented before them and reset inside
  the placement branch. The board edits never read the countdown, so the final state is the
  same.
  - The two `foreach` loops and the `Where`/`Take` queries are the helper methods `SpikeDanger`
    and `PlaceDanger`, run one after the other by `EditBoard`.
  - The spike loop visits the Danger cells in an unspecified order. This is harmless, because
    each visit writes the same tile.
- Cell identity: the occupant is an object reference to a `Bots.TestBot` (or none). `TestBot`
  is the only `IBot` defined in BotBash.Core. The server's `ManualBot`
  (BotBash.Server/EngineManager.cs:61) is not part of this model. The core only tests the
  occupant against null (BotBash.Core/Engine.cs:43), so one class stands for every bot.
- `TestBot`'s fields (`Position`, `Vision`, `ScanCooldown`, `LungeCooldown`) are declared but not
  used: no operation of the core reads or writes them after construction.
- Actions.NewAction: only the `Math.Abs` overflow of the direction test is modelled. Directions
  are unbounded integers, so components outside the 32-bit range are accepted as inputs, though
  C# cannot produce them. `Bots.Move`, `Bots.Bash` and `Bots.Lunge` inherit this.
- Entities.OnEnter: `Danger` is used by the engine but has no definition in BotBash.Core/Entities.cs.
  It is modelled as a fourth tile whose `OnEnter` is not implemented, like Empty and Spike.
  - The C# exceptions are modelled as failure values.
- BotActions.Translate: the `_ => (0, 0)` arm cannot be reached for the four enum values, so the
  model has no such case.
- The server, the SignalR hub, the engine manager and the browser UI (BotBash.Server) are not
  part of this model. They are network, concurrency and DOM code.
- BotBash.Core/program.cs is not part of this model. It is an entry point calling an `Engine`
  constructor that does not exist.
