/** BotBash.Core/World.cs: the board a game is played on. */
module Worlds {
  import opened Coordinates
  import opened Entities
  import opened Cells
  import Bots
  import opened LineOfSight

  /** The percentage chance that `Randomise` makes a wall. */
  const WallWeight := 20

  /** `Randomise`, with the die roll (1..100 from the generator) as a parameter. */
  function Randomise(roll: int): (t: Tile)
    ensures t == Wall || t == Empty
  {
    if roll <= WallWeight then Wall else Empty
  }

  /** How many of the rolls lo..hi-1 make a wall. */
  function WallRolls(lo: int, hi: int): nat
    decreases hi - lo
  {
    if hi <= lo then 0 else WallRolls(lo, hi - 1) + (if Randomise(hi - 1) == Wall then 1 else 0)
  }

  lemma {:induction false} WallRollsUpTo(hi: int)
    requires 1 <= hi
    ensures WallRolls(1, hi) == if hi - 1 < WallWeight then hi - 1 else WallWeight
    decreases hi
  {
    if hi > 1 {
      WallRollsUpTo(hi - 1);
    }
  }

  /** A roll makes a wall exactly when it is at most 20: of the 100 equally likely rolls 1..100,
      exactly 20 make a wall (a 20% chance) and every other one an empty cell. */
  lemma WallShare(roll: int)
    ensures Randomise(roll) == Wall <==> roll <= 20
    ensures Randomise(roll) == Empty <==> roll > 20
    ensures WallRolls(1, 101) == 20
  {
    WallRollsUpTo(101);
  }

  class World {
    var width: int
    var height: int
    var layout: map<Coordinate, Cell>

    /** No two positions share a cell object, so writing one cell is seen at one position only. */
    ghost predicate Valid()
      reads this
    {
      forall k, k' :: k in layout && k' in layout && k != k' ==> layout[k] != layout[k']
    }

    /** The board as seen through its cells: the tile at each position. */
    ghost function Tiles(): (tiles: map<Coordinate, Tile>)
      reads this, layout.Values
      ensures tiles.Keys == layout.Keys
    {
      map k | k in layout :: layout[k].construct
    }

    /** The positions that hold a bot. */
    ghost function Occupied(): (occupied: set<Coordinate>)
      reads this, layout.Values
      ensures occupied <= layout.Keys
    {
      set k | k in layout && layout[k].player != null
    }

    /** The bot, if any, at each position. */
    ghost function Players(): (players: map<Coordinate, Bots.TestBot?>)
      reads this, layout.Values
      ensures players.Keys == layout.Keys
    {
      map k | k in layout :: layout[k].player
    }

    /** A position of the width x height board, counted from 0. */
    ghost predicate OnBoard(k: Coordinate)
      reads this
    {
      0 <= k.x < width && 0 <= k.y < height
    }

    constructor (width: int, height: int)
      ensures this.width == width && this.height == height && layout == map[] && Valid()
    {
      this.width := width;
      this.height := height;
      layout := map[];
    }

    /** `InitialiseRandom`, with the die roll of each position as a parameter. `Enumerable.Range`
        throws for a negative count: always for the width, and for the height only when there is
        at least one column to build. On failure the layout is left as it was. */
    method InitialiseRandom(roll: Coordinate -> int) returns (ok: bool)
      requires Valid()
      modifies this`layout
      ensures Valid()
      ensures ok <==> 0 <= width && (0 < width ==> 0 <= height)
      ensures !ok ==> layout == old(layout)
      ensures ok ==> forall k :: k in layout <==> OnBoard(k)
      ensures ok ==> forall k :: k in layout ==>
                fresh(layout[k]) && layout[k].player == null && layout[k].construct == Randomise(roll(k))
    {
      if width < 0 || (0 < width && height < 0) {
        return false;
      }
      var cells: map<Coordinate, Cell> := map[];
      var x := 0;
      while x < width
        invariant 0 <= x <= width
        invariant forall k :: k in cells <==> 0 <= k.x < x && 0 <= k.y < height
        invariant forall k :: k in cells ==>
                    fresh(cells[k]) && cells[k].player == null && cells[k].construct == Randomise(roll(k))
        invariant forall k, k' :: k in cells && k' in cells && k != k' ==> cells[k] != cells[k']
      {
        var y := 0;
        while y < height
          invariant 0 <= y <= height
          invariant forall k :: k in cells <==> (0 <= k.x < x && 0 <= k.y < height) || (k.x == x && 0 <= k.y < y)
          invariant forall k :: k in cells ==>
                      fresh(cells[k]) && cells[k].player == null && cells[k].construct == Randomise(roll(k))
          invariant forall k, k' :: k in cells && k' in cells && k != k' ==> cells[k] != cells[k']
        {
          var cell := new Cell(null, Randomise(roll(Coordinate(x, y))));
          cells := cells[Coordinate(x, y) := cell];
          y := y + 1;
        }
        x := x + 1;
      }
      layout := cells;
      return true;
    }

    /** `CastLine`: adds to `visible` what the Bresenham ray from `start` to `target` sees. */
    method CastLine(start: Coordinate, target: Coordinate, visible: set<Coordinate>) returns (result: set<Coordinate>)
      ensures result == visible + RaySet(Tiles(), start, target)
    {
      var currentX, currentY := start.x, start.y;
      var endX, endY := target.x, target.y;
      var xDistance: int := Abs(endX - currentX);
      var yDistance: int := Abs(endY - currentY);
      var stepX := if currentX < endX then 1 else -1;
      var stepY := if currentY < endY then 1 else -1;
      var errorTerm := xDistance - yDistance;

      ghost var tiles := Tiles();
      ghost var l := Line(target, xDistance, yDistance, stepX, stepY);
      assert l == LineTo(start, target);
      LaunchOnTrack(start, target);
      ghost var goal := visible + Reach(tiles, l, Launch(start, target));
      result := visible;
      while true
        invariant OnTrack(l, Cursor(Coordinate(currentX, currentY), errorTerm))
        invariant result + Reach(tiles, l, Cursor(Coordinate(currentX, currentY), errorTerm)) == goal
        decreases GapX(l, Cursor(Coordinate(currentX, currentY), errorTerm)) + GapY(l, Cursor(Coordinate(currentX, currentY), errorTerm))
      {
        var here := Coordinate(currentX, currentY);
        ghost var c := Cursor(here, errorTerm);
        if here !in layout {
          break;
        }
        result := result + {here};
        if layout[here].construct == Wall {
          break;
        }
        if currentX == endX && currentY == endY {
          break;
        }
        var doubleError := 2 * errorTerm;
        if doubleError > -yDistance {
          errorTerm := errorTerm - yDistance;
          currentX := currentX + stepX;
        }
        if doubleError < xDistance {
          errorTerm := errorTerm + xDistance;
          currentY := currentY + stepY;
        }
        assert Cursor(Coordinate(currentX, currentY), errorTerm) == Advance(l, c);
        ReachStep(tiles, l, c);
      }
    }

    /** `GetVisibleArea`: casts a ray to every cell at Manhattan distance exactly `viewRange` from
        `botPos`, walking the diamond column by column. */
    method GetVisibleArea(botPos: Coordinate, viewRange: int) returns (visibleTiles: set<Coordinate>)
      ensures visibleTiles == VisibleArea(Tiles(), botPos, viewRange)
    {
      ghost var tiles := Tiles();
      visibleTiles := {};
      var offsetX := -viewRange;
      while offsetX <= viewRange
        invariant offsetX == -viewRange || -viewRange <= offsetX <= viewRange + 1
        invariant visibleTiles == Columns(tiles, botPos, viewRange, -viewRange, offsetX)
      {
        var maxOffsetY := viewRange - Abs(offsetX);
        var offsetY := -maxOffsetY;
        ghost var before := visibleTiles;
        while offsetY <= maxOffsetY
          invariant -maxOffsetY <= offsetY <= maxOffsetY + 1
          invariant visibleTiles == before + Row(tiles, botPos, viewRange, offsetX, -maxOffsetY, offsetY)
        {
          ghost var previous := visibleTiles;
          if Abs(offsetX) + Abs(offsetY) == viewRange {
            var targetTile := Coordinate(botPos.x + offsetX, botPos.y + offsetY);
            visibleTiles := CastLine(botPos, targetTile, visibleTiles);
          }
          ProbeStep(tiles, botPos, viewRange, offsetX, -maxOffsetY, offsetY, before, previous, visibleTiles);
          offsetY := offsetY + 1;
        }
        ColumnPass(tiles, botPos, viewRange, -viewRange, offsetX, before, visibleTiles);
        offsetX := offsetX + 1;
      }
    }
  }
}
