/** The line-of-sight computation of BotBash.Core/World.cs, stated on a plain map from board
    position to tile: the Bresenham line a ray follows, the part of it a bot can see, and the
    union of the rays cast to the edge of the view diamond. */
module LineOfSight {
  import opened Coordinates
  import opened Entities

  /** What stays fixed during one cast: the target, the distances to it along each axis and the
      direction of a step along each axis. */
  datatype Line = Line(target: Coordinate, dx: int, dy: int, sx: int, sy: int)

  /** What changes from one iteration of the cast to the next: the current cell and the error term. */
  datatype Cursor = Cursor(at: Coordinate, err: int)

  /** The line from `start` to `target`, set up as `CastLine` sets it up. */
  function LineTo(start: Coordinate, target: Coordinate): Line
  {
    Line(target, Abs(target.x - start.x), Abs(target.y - start.y),
         if start.x < target.x then 1 else -1,
         if start.y < target.y then 1 else -1)
  }

  function Launch(start: Coordinate, target: Coordinate): Cursor
  {
    Cursor(start, Abs(target.x - start.x) - Abs(target.y - start.y))
  }

  /** How many steps of `step` separate `at` from `goal` (negative once past it). */
  function Gap(goal: int, at: int, step: int): int
  {
    if step == 1 then goal - at else at - goal
  }

  function GapX(l: Line, c: Cursor): int { Gap(l.target.x, c.at.x, l.sx) }
  function GapY(l: Line, c: Cursor): int { Gap(l.target.y, c.at.y, l.sy) }

  /** a * n as repeated addition: the products below are only ever taken apart one addition at
      a time, and writing them this way keeps nonlinear arithmetic out of the proofs. */
  function Times(a: int, n: nat): int
  {
    if n == 0 then 0 else Times(a, n - 1) + a
  }

  lemma {:induction false} TimesIsProduct(a: int, n: nat)
    ensures Times(a, n) == a * n
  {
    if n > 0 {
      TimesIsProduct(a, n - 1);
    }
  }

  /** The cursor has not overshot the target on either axis, and the error term records how
      far it has come: with rx, ry the remaining distances, err == dx - dy - dx*ry + dy*rx. */
  predicate OnTrack(l: Line, c: Cursor)
  {
    l.dx >= 0 && l.dy >= 0 && (l.sx == 1 || l.sx == -1) && (l.sy == 1 || l.sy == -1) &&
    0 <= GapX(l, c) <= l.dx && 0 <= GapY(l, c) <= l.dy &&
    c.err == l.dx - l.dy - Times(l.dx, GapY(l, c)) + Times(l.dy, GapX(l, c))
  }

  /** One iteration of the loop body of `CastLine`: both tests use the error term from before
      the iteration. */
  function Advance(l: Line, c: Cursor): Cursor
  {
    var doubled := 2 * c.err;
    var stepX := doubled > -l.dy;
    var stepY := doubled < l.dx;
    Cursor(Coordinate(if stepX then c.at.x + l.sx else c.at.x,
                      if stepY then c.at.y + l.sy else c.at.y),
           c.err - (if stepX then l.dy else 0) + (if stepY then l.dx else 0))
  }

  lemma {:induction false} TimesAtLeast(a: int, n: nat)
    requires a >= 0 && n >= 1
    ensures Times(a, n) >= a
  {
    if n > 1 {
      TimesAtLeast(a, n - 1);
    }
  }

  /** The cast starts on track. */
  lemma LaunchOnTrack(start: Coordinate, target: Coordinate)
    ensures OnTrack(LineTo(start, target), Launch(start, target))
  {
    var l := LineTo(start, target);
    assert GapX(l, Launch(start, target)) == l.dx;
    assert GapY(l, Launch(start, target)) == l.dy;
    TimesIsProduct(l.dx, l.dy);
    TimesIsProduct(l.dy, l.dx);
  }

  /** The arithmetic core of one iteration, with the two products `p == dx * ry` and
      `q == dy * rx` abstracted to the facts it needs about them. */
  lemma StepArithmetic(dx: int, dy: int, rx: int, ry: int, p: int, q: int, err: int)
    requires 0 <= rx <= dx && 0 <= ry <= dy && rx + ry > 0
    requires err == dx - dy - p + q
    requires (ry == 0 ==> p == 0) && (ry >= 1 ==> p >= dx)
    requires (rx == 0 ==> q == 0) && (rx >= 1 ==> q >= dy)
    ensures 2 * err > -dy ==> rx >= 1
    ensures 2 * err < dx ==> ry >= 1
    ensures 2 * err > -dy || 2 * err < dx
  {
  }

  /** An iteration away from the target moves at most one cell along each axis, never away from
      the target, and at least one cell in all, and stays on track. */
  lemma {:induction false} AdvanceGaps(l: Line, c: Cursor)
    requires OnTrack(l, c) && c.at != l.target
    ensures OnTrack(l, Advance(l, c))
    ensures GapX(l, c) - 1 <= GapX(l, Advance(l, c)) <= GapX(l, c)
    ensures GapY(l, c) - 1 <= GapY(l, Advance(l, c)) <= GapY(l, c)
    ensures GapX(l, Advance(l, c)) + GapY(l, Advance(l, c)) < GapX(l, c) + GapY(l, c)
  {
    var rx, ry := GapX(l, c), GapY(l, c);
    var p, q := Times(l.dx, ry), Times(l.dy, rx);
    assert rx == 0 <==> c.at.x == l.target.x;
    assert ry == 0 <==> c.at.y == l.target.y;
    if ry >= 1 { TimesAtLeast(l.dx, ry); }
    if rx >= 1 { TimesAtLeast(l.dy, rx); }
    StepArithmetic(l.dx, l.dy, rx, ry, p, q, c.err);
    var stepX := 2 * c.err > -l.dy;
    var stepY := 2 * c.err < l.dx;
    var n := Advance(l, c);
    assert GapX(l, n) == if stepX then rx - 1 else rx;
    assert GapY(l, n) == if stepY then ry - 1 else ry;
  }

  /** A step from `a` to `b` on the way to `target`: at most one cell along each axis, at least
      one cell in all, and straight towards the target. */
  predicate Step(a: Coordinate, b: Coordinate, target: Coordinate)
  {
    Abs(b.x - a.x) <= 1 && Abs(b.y - a.y) <= 1 && a != b &&
    Manhattan(b, target) + Manhattan(a, b) == Manhattan(a, target)
  }

  /** One iteration away from the target is a step towards it. */
  lemma AdvanceStep(l: Line, c: Cursor)
    requires OnTrack(l, c) && c.at != l.target
    ensures Step(c.at, Advance(l, c).at, l.target)
  {
    AdvanceOnTrack(l, c);
    var n := Advance(l, c);
    assert Manhattan(c.at, l.target) == GapX(l, c) + GapY(l, c);
    assert Manhattan(n.at, l.target) == GapX(l, n) + GapY(l, n);
    assert Manhattan(c.at, n.at) == (GapX(l, c) - GapX(l, n)) + (GapY(l, c) - GapY(l, n));
  }

  /** An iteration away from the target stays on track and brings the cursor closer: the
      measure by which the cast terminates. */
  lemma AdvanceOnTrack(l: Line, c: Cursor)
    requires OnTrack(l, c) && c.at != l.target
    ensures OnTrack(l, Advance(l, c))
    ensures GapX(l, Advance(l, c)) + GapY(l, Advance(l, c)) < GapX(l, c) + GapY(l, c)
  {
    AdvanceGaps(l, c);
  }

  /** The Bresenham line from the cursor to the target, both ends included, ignoring walls and
      the edge of the board. */
  function Path(l: Line, c: Cursor): seq<Coordinate>
    requires OnTrack(l, c)
    decreases GapX(l, c) + GapY(l, c)
  {
    if c.at == l.target then [c.at]
    else
      AdvanceOnTrack(l, c);
      [c.at] + Path(l, Advance(l, c))
  }

  /** What a ray sees of a path: it stops before the first cell off the board, and stops after
      the first wall, which is itself seen. */
  function Sight(tiles: map<Coordinate, Tile>, path: seq<Coordinate>): seq<Coordinate>
  {
    if path == [] || path[0] !in tiles then []
    else if tiles[path[0]] == Wall then [path[0]]
    else [path[0]] + Sight(tiles, path[1..])
  }

  /** The cells `CastLine(start, target, ...)` adds, in the order it adds them. */
  function Ray(tiles: map<Coordinate, Tile>, start: Coordinate, target: Coordinate): seq<Coordinate>
  {
    LaunchOnTrack(start, target);
    Sight(tiles, Path(LineTo(start, target), Launch(start, target)))
  }

  /** The cells the cast loop adds from the cursor on, one iteration per call: none when the
      current cell is off the board, otherwise the current cell and what follows it. */
  function Reach(tiles: map<Coordinate, Tile>, l: Line, c: Cursor): set<Coordinate>
    requires OnTrack(l, c)
    decreases GapX(l, c) + GapY(l, c), 1
  {
    if c.at !in tiles then {} else {c.at} + Beyond(tiles, l, c)
  }

  /** What the cast loop adds after the current cell: nothing when it is a wall or the target. */
  function Beyond(tiles: map<Coordinate, Tile>, l: Line, c: Cursor): set<Coordinate>
    requires OnTrack(l, c) && c.at in tiles
    decreases GapX(l, c) + GapY(l, c), 0
  {
    if tiles[c.at] == Wall || c.at == l.target then {}
    else
      AdvanceOnTrack(l, c);
      Reach(tiles, l, Advance(l, c))
  }

  /** One iteration of the cast past a cell that is on the board, not a wall and not the target:
      it adds that cell and carries on from the next one. */
  lemma ReachStep(tiles: map<Coordinate, Tile>, l: Line, c: Cursor)
    requires OnTrack(l, c) && c.at in tiles && tiles[c.at] != Wall && c.at != l.target
    ensures OnTrack(l, Advance(l, c))
    ensures GapX(l, Advance(l, c)) + GapY(l, Advance(l, c)) < GapX(l, c) + GapY(l, c)
    ensures Reach(tiles, l, c) == {c.at} + Reach(tiles, l, Advance(l, c))
  {
    AdvanceOnTrack(l, c);
    assert Beyond(tiles, l, c) == Reach(tiles, l, Advance(l, c));
  }

  /** The set `CastLine(start, target, ...)` adds. */
  function RaySet(tiles: map<Coordinate, Tile>, start: Coordinate, target: Coordinate): set<Coordinate>
  {
    LaunchOnTrack(start, target);
    Reach(tiles, LineTo(start, target), Launch(start, target))
  }

  /** The loop's view and the path's view of a cast agree. */
  lemma {:induction false} ReachIsSight(tiles: map<Coordinate, Tile>, l: Line, c: Cursor)
    requires OnTrack(l, c)
    ensures Reach(tiles, l, c) == Elems(Sight(tiles, Path(l, c)))
    decreases GapX(l, c) + GapY(l, c)
  {
    if c.at in tiles && tiles[c.at] != Wall && c.at != l.target {
      AdvanceOnTrack(l, c);
      ReachIsSight(tiles, l, Advance(l, c));
      var rest := Sight(tiles, Path(l, Advance(l, c)));
      assert Sight(tiles, Path(l, c)) == [c.at] + rest;
      assert Elems([c.at] + rest) == {c.at} + Elems(rest);
    } else if c.at in tiles {
      assert Sight(tiles, Path(l, c)) == [c.at];
    }
  }

  lemma RaySetIsRay(tiles: map<Coordinate, Tile>, start: Coordinate, target: Coordinate)
    ensures RaySet(tiles, start, target) == Elems(Ray(tiles, start, target))
  {
    LaunchOnTrack(start, target);
    ReachIsSight(tiles, LineTo(start, target), Launch(start, target));
  }

  // ---------------------------------------------------------------------------------------------
  // The Bresenham path

  /** A path starts at the cursor, ends at the target, and has at most one cell per unit of
      Manhattan distance plus one: the cast terminates. */
  lemma {:induction false} PathEnds(l: Line, c: Cursor)
    requires OnTrack(l, c)
    ensures |Path(l, c)| >= 1 && Path(l, c)[0] == c.at && Path(l, c)[|Path(l, c)| - 1] == l.target
    ensures |Path(l, c)| <= GapX(l, c) + GapY(l, c) + 1
    decreases GapX(l, c) + GapY(l, c)
  {
    if c.at != l.target {
      AdvanceOnTrack(l, c);
      PathEnds(l, Advance(l, c));
    }
  }

  /** Every cell of a path lies between the cursor and the target on both axes. */
  lemma {:induction false} PathInBox(l: Line, c: Cursor, i: nat)
    requires OnTrack(l, c) && i < |Path(l, c)|
    ensures 0 <= Gap(l.target.x, Path(l, c)[i].x, l.sx) <= GapX(l, c)
    ensures 0 <= Gap(l.target.y, Path(l, c)[i].y, l.sy) <= GapY(l, c)
    decreases GapX(l, c) + GapY(l, c)
  {
    if c.at != l.target && i > 0 {
      AdvanceOnTrack(l, c);
      PathInBox(l, Advance(l, c), i - 1);
    }
  }

  /** Consecutive cells of a path are at most one apart on each axis, never equal, and each step
      brings the ray closer to the target by exactly the length of the step: it never passes the
      target on either axis. */
  lemma {:induction false} PathSteps(l: Line, c: Cursor, i: nat)
    requires OnTrack(l, c) && i + 1 < |Path(l, c)|
    ensures Step(Path(l, c)[i], Path(l, c)[i + 1], l.target)
    decreases GapX(l, c) + GapY(l, c)
  {
    AdvanceOnTrack(l, c);
    var n := Advance(l, c);
    if i == 0 {
      PathEnds(l, n);
      assert Path(l, c)[1] == n.at;
      AdvanceStep(l, c);
    } else {
      assert Path(l, c)[i] == Path(l, n)[i - 1];
      assert Path(l, c)[i + 1] == Path(l, n)[i];
      PathSteps(l, n, i - 1);
    }
  }

  /** Every cell of a ray's path is no further from the start than the target is. */
  lemma PathWithinReach(start: Coordinate, target: Coordinate, i: nat)
    requires i < |(LaunchOnTrack(start, target); Path(LineTo(start, target), Launch(start, target)))|
    ensures Manhattan(start, Path(LineTo(start, target), Launch(start, target))[i]) <= Manhattan(start, target)
  {
    LaunchOnTrack(start, target);
    PathInBox(LineTo(start, target), Launch(start, target), i);
  }

  // ---------------------------------------------------------------------------------------------
  // What a ray sees

  /** A ray sees a prefix of its path. */
  lemma {:induction false} SightPrefix(tiles: map<Coordinate, Tile>, path: seq<Coordinate>)
    ensures |Sight(tiles, path)| <= |path|
    ensures Sight(tiles, path) == path[..|Sight(tiles, path)|]
    decreases |path|
  {
    if path != [] && path[0] in tiles && tiles[path[0]] != Wall {
      SightPrefix(tiles, path[1..]);
    }
  }

  /** Everything a ray sees is on the board; only its last cell may be a wall; and when it is
      cut short, either that last cell is a wall or the next cell of the path is off the board. */
  lemma {:induction false} SightStops(tiles: map<Coordinate, Tile>, path: seq<Coordinate>)
    ensures forall i :: 0 <= i < |Sight(tiles, path)| ==> Sight(tiles, path)[i] in tiles
    ensures forall i :: 0 <= i < |Sight(tiles, path)| - 1 ==> tiles[Sight(tiles, path)[i]] != Wall
    ensures |Sight(tiles, path)| < |path| ==>
              (|Sight(tiles, path)| > 0 && tiles[Sight(tiles, path)[|Sight(tiles, path)| - 1]] == Wall) ||
              path[|Sight(tiles, path)|] !in tiles
    decreases |path|
  {
    SightPrefix(tiles, path);
    if path != [] && path[0] in tiles && tiles[path[0]] != Wall {
      SightStops(tiles, path[1..]);
      SightPrefix(tiles, path[1..]);
      var rest := Sight(tiles, path[1..]);
      assert Sight(tiles, path) == [path[0]] + rest;
      forall i | 0 <= i < |Sight(tiles, path)|
        ensures Sight(tiles, path)[i] in tiles
      {
        if i > 0 { assert Sight(tiles, path)[i] == rest[i - 1]; }
      }
      forall i | 0 <= i < |Sight(tiles, path)| - 1
        ensures tiles[Sight(tiles, path)[i]] != Wall
      {
        if i > 0 { assert Sight(tiles, path)[i] == rest[i - 1]; }
      }
    }
  }

  /** A ray starts at its start cell whenever that cell is on the board. */
  lemma RaySeesStart(tiles: map<Coordinate, Tile>, start: Coordinate, target: Coordinate)
    requires start in tiles
    ensures start in Ray(tiles, start, target)
  {
    LaunchOnTrack(start, target);
    PathEnds(LineTo(start, target), Launch(start, target));
  }

  /** Every cell a ray sees is on the board and no further from the start than the target. */
  lemma RayBounds(tiles: map<Coordinate, Tile>, start: Coordinate, target: Coordinate, c: Coordinate)
    requires c in Ray(tiles, start, target)
    ensures c in tiles && Manhattan(start, c) <= Manhattan(start, target)
  {
    LaunchOnTrack(start, target);
    var path := Path(LineTo(start, target), Launch(start, target));
    SightPrefix(tiles, path);
    SightStops(tiles, path);
    var s := Sight(tiles, path);
    var i :| 0 <= i < |s| && s[i] == c;
    assert path[i] == c;
    PathWithinReach(start, target, i);
  }

  // ---------------------------------------------------------------------------------------------
  // The view diamond

  /** The cells a cast to offset (ox, oy) adds, or none when the offset is not on the edge of the
      diamond of radius r. */
  function Probe(tiles: map<Coordinate, Tile>, pos: Coordinate, r: int, ox: int, oy: int): set<Coordinate>
  {
    if Abs(ox) + Abs(oy) == r then RaySet(tiles, pos, Coordinate(pos.x + ox, pos.y + oy)) else {}
  }

  /** What the inner loop of `GetVisibleArea` has added for column ox once oy has run over [lo, hi). */
  function Row(tiles: map<Coordinate, Tile>, pos: Coordinate, r: int, ox: int, lo: int, hi: int): set<Coordinate>
    decreases hi - lo
  {
    if hi <= lo then {} else Probe(tiles, pos, r, ox, lo) + Row(tiles, pos, r, ox, lo + 1, hi)
  }

  /** What the outer loop of `GetVisibleArea` has added once ox has run over [lo, hi). */
  function Columns(tiles: map<Coordinate, Tile>, pos: Coordinate, r: int, lo: int, hi: int): set<Coordinate>
    decreases hi - lo
  {
    if hi <= lo then {}
    else
      var m := r - Abs(lo);
      Row(tiles, pos, r, lo, -m, m + 1) + Columns(tiles, pos, r, lo + 1, hi)
  }

  /** The result of `GetVisibleArea(pos, r)`. */
  function VisibleArea(tiles: map<Coordinate, Tile>, pos: Coordinate, r: int): set<Coordinate>
  {
    Columns(tiles, pos, r, -r, r + 1)
  }

  /** c is seen on the ray cast to offset (ox, oy), which is on the edge of the diamond. */
  predicate SeenVia(tiles: map<Coordinate, Tile>, pos: Coordinate, r: int, c: Coordinate, ox: int, oy: int)
  {
    Abs(ox) + Abs(oy) == r && c in RaySet(tiles, pos, Coordinate(pos.x + ox, pos.y + oy))
  }

  lemma {:induction false} RowMembers(tiles: map<Coordinate, Tile>, pos: Coordinate, r: int, ox: int, lo: int, hi: int, c: Coordinate)
    ensures c in Row(tiles, pos, r, ox, lo, hi) <==> exists oy :: lo <= oy < hi && SeenVia(tiles, pos, r, c, ox, oy)
    decreases hi - lo
  {
    if hi > lo {
      RowMembers(tiles, pos, r, ox, lo + 1, hi, c);
      if c in Probe(tiles, pos, r, ox, lo) {
        assert SeenVia(tiles, pos, r, c, ox, lo);
      }
    }
  }

  lemma {:induction false} ColumnMembers(tiles: map<Coordinate, Tile>, pos: Coordinate, r: int, lo: int, hi: int, c: Coordinate)
    ensures c in Columns(tiles, pos, r, lo, hi) <==> exists ox, oy :: lo <= ox < hi && SeenVia(tiles, pos, r, c, ox, oy)
    decreases hi - lo
  {
    if hi > lo {
      var m := r - Abs(lo);
      ColumnMembers(tiles, pos, r, lo + 1, hi, c);
      RowMembers(tiles, pos, r, lo, -m, m + 1, c);
      if exists ox, oy :: lo <= ox < hi && SeenVia(tiles, pos, r, c, ox, oy) {
        var ox, oy :| lo <= ox < hi && SeenVia(tiles, pos, r, c, ox, oy);
        if ox == lo {
          assert -m <= oy < m + 1;
        } else {
          assert lo + 1 <= ox < hi;
        }
      }
    }
  }

  /** The visible area is exactly the set of cells seen along the rays cast from `pos` to the
      cells at Manhattan distance exactly r. */
  lemma VisibleAreaMembers(tiles: map<Coordinate, Tile>, pos: Coordinate, r: int, c: Coordinate)
    ensures c in VisibleArea(tiles, pos, r) <==> exists ox, oy :: SeenVia(tiles, pos, r, c, ox, oy)
  {
    ColumnMembers(tiles, pos, r, -r, r + 1, c);
    if exists ox, oy :: SeenVia(tiles, pos, r, c, ox, oy) {
      var ox, oy :| SeenVia(tiles, pos, r, c, ox, oy);
      assert -r <= ox < r + 1;
    }
  }

  /** One more pass of the inner loop of `GetVisibleArea`. */
  lemma {:induction false} RowStep(tiles: map<Coordinate, Tile>, pos: Coordinate, r: int, ox: int, lo: int, hi: int)
    requires lo <= hi
    ensures Row(tiles, pos, r, ox, lo, hi + 1) == Row(tiles, pos, r, ox, lo, hi) + Probe(tiles, pos, r, ox, hi)
    decreases hi - lo
  {
    if lo < hi {
      RowStep(tiles, pos, r, ox, lo + 1, hi);
    }
  }

  /** One pass of the inner loop of `GetVisibleArea`, with what it adds given: a ray when the
      offset is on the edge of the diamond, nothing otherwise. */
  lemma ProbeStep(tiles: map<Coordinate, Tile>, pos: Coordinate, r: int, ox: int, lo: int, oy: int,
                  before: set<Coordinate>, previous: set<Coordinate>, next: set<Coordinate>)
    requires lo <= oy
    requires previous == before + Row(tiles, pos, r, ox, lo, oy)
    requires Abs(ox) + Abs(oy) == r ==> next == previous + RaySet(tiles, pos, Coordinate(pos.x + ox, pos.y + oy))
    requires Abs(ox) + Abs(oy) != r ==> next == previous
    ensures next == before + Row(tiles, pos, r, ox, lo, oy + 1)
  {
    RowStep(tiles, pos, r, ox, lo, oy);
  }

  /** One pass of the outer loop of `GetVisibleArea`, with what its inner loop added given. */
  lemma ColumnPass(tiles: map<Coordinate, Tile>, pos: Coordinate, r: int, lo: int, ox: int,
                   before: set<Coordinate>, next: set<Coordinate>)
    requires lo <= ox
    requires before == Columns(tiles, pos, r, lo, ox)
    requires next == before + Row(tiles, pos, r, ox, -(r - Abs(ox)), r - Abs(ox) + 1)
    ensures next == Columns(tiles, pos, r, lo, ox + 1)
  {
    ColumnStep(tiles, pos, r, lo, ox);
  }

  /** A loop that has not run has added nothing. */
  lemma ColumnsNone(tiles: map<Coordinate, Tile>, pos: Coordinate, r: int, lo: int, hi: int)
    requires hi <= lo
    ensures Columns(tiles, pos, r, lo, hi) == {}
  {
  }

  /** One more pass of the outer loop of `GetVisibleArea`. */
  lemma {:induction false} ColumnStep(tiles: map<Coordinate, Tile>, pos: Coordinate, r: int, lo: int, hi: int)
    requires lo <= hi
    ensures Columns(tiles, pos, r, lo, hi + 1)
         == Columns(tiles, pos, r, lo, hi) + Row(tiles, pos, r, hi, -(r - Abs(hi)), r - Abs(hi) + 1)
    decreases hi - lo
  {
    if lo < hi {
      ColumnStep(tiles, pos, r, lo + 1, hi);
    }
  }

  /** Everything visible is on the board and within Manhattan distance r of the viewer. */
  lemma VisibleBounds(tiles: map<Coordinate, Tile>, pos: Coordinate, r: int, c: Coordinate)
    requires c in VisibleArea(tiles, pos, r)
    ensures c in tiles && Manhattan(pos, c) <= r
  {
    VisibleAreaMembers(tiles, pos, r, c);
    var ox, oy :| SeenVia(tiles, pos, r, c, ox, oy);
    RaySetIsRay(tiles, pos, Coordinate(pos.x + ox, pos.y + oy));
    RayBounds(tiles, pos, Coordinate(pos.x + ox, pos.y + oy), c);
  }

  /** Everything visible is on the board and within range, for every cell at once. */
  lemma VisibleAreaBounds(tiles: map<Coordinate, Tile>, pos: Coordinate, r: int)
    ensures forall c :: c in VisibleArea(tiles, pos, r) ==> c in tiles && Manhattan(pos, c) <= r
  {
    forall c | c in VisibleArea(tiles, pos, r)
      ensures c in tiles && Manhattan(pos, c) <= r
    {
      VisibleBounds(tiles, pos, r, c);
    }
  }

  /** A negative range sees nothing; otherwise a viewer on the board sees its own cell. */
  lemma VisibleOrigin(tiles: map<Coordinate, Tile>, pos: Coordinate, r: int)
    ensures r < 0 ==> VisibleArea(tiles, pos, r) == {}
    ensures r >= 0 && pos in tiles ==> pos in VisibleArea(tiles, pos, r)
  {
    if r >= 0 && pos in tiles {
      RaySeesStart(tiles, pos, Coordinate(pos.x + r, pos.y));
      RaySetIsRay(tiles, pos, Coordinate(pos.x + r, pos.y));
      assert SeenVia(tiles, pos, r, pos, r, 0);
      VisibleAreaMembers(tiles, pos, r, pos);
    }
  }

  // ---------------------------------------------------------------------------------------------
  // Casting only to the edge of the diamond misses cells

  /** A path of three cells: two iterations of the cast reach the target. */
  lemma TwoStepPath(l: Line, c: Cursor)
    requires OnTrack(l, c) && c.at != l.target
    requires Advance(l, c).at != l.target && Advance(l, Advance(l, c)).at == l.target
    ensures Path(l, c) == [c.at, Advance(l, c).at, l.target]
  {
    AdvanceOnTrack(l, c);
    AdvanceOnTrack(l, Advance(l, c));
    assert Path(l, Advance(l, c)) == [Advance(l, c).at] + Path(l, Advance(l, Advance(l, c)));
  }

  /** A ray from (0,0) that sees (1,1) is cast to a target beyond it on both axes. */
  lemma DiagonalBox(tiles: map<Coordinate, Tile>, t: Coordinate)
    requires Coordinate(1, 1) in RaySet(tiles, Coordinate(0, 0), t)
    ensures t.x >= 1 && t.y >= 1
  {
    var o := Coordinate(0, 0);
    RaySetIsRay(tiles, o, t);
    LaunchOnTrack(o, t);
    var path := Path(LineTo(o, t), Launch(o, t));
    SightPrefix(tiles, path);
    var i :| 0 <= i < |Sight(tiles, path)| && Sight(tiles, path)[i] == Coordinate(1, 1);
    assert path[i] == Coordinate(1, 1);
    PathInBox(LineTo(o, t), Launch(o, t), i);
  }

  /** The Bresenham paths from (0,0) to (2,1) and to (1,2) turn at (1,0) and at (0,1). */
  lemma EdgePaths(t: Coordinate)
    requires t == Coordinate(2, 1) || t == Coordinate(1, 2)
    ensures OnTrack(LineTo(Coordinate(0, 0), t), Launch(Coordinate(0, 0), t))
    ensures Path(LineTo(Coordinate(0, 0), t), Launch(Coordinate(0, 0), t))
         == [Coordinate(0, 0), if t.x == 2 then Coordinate(1, 0) else Coordinate(0, 1), t]
  {
    var o := Coordinate(0, 0);
    LaunchOnTrack(o, t);
    var l, c := LineTo(o, t), Launch(o, t);
    if t.x == 2 {
      assert Advance(l, c) == Cursor(Coordinate(1, 0), 0);
    } else {
      assert Advance(l, c) == Cursor(Coordinate(0, 1), 0);
    }
    TwoStepPath(l, c);
  }

  /** Neither of those paths passes (1,1). */
  lemma DiagonalOffPath(t: Coordinate)
    requires t == Coordinate(2, 1) || t == Coordinate(1, 2)
    ensures OnTrack(LineTo(Coordinate(0, 0), t), Launch(Coordinate(0, 0), t))
    ensures forall i :: 0 <= i < |Path(LineTo(Coordinate(0, 0), t), Launch(Coordinate(0, 0), t))| ==>
              Path(LineTo(Coordinate(0, 0), t), Launch(Coordinate(0, 0), t))[i] != Coordinate(1, 1)
  {
    EdgePaths(t);
  }

  /** A ray sees nothing that is not on its path. */
  lemma SightAvoids(tiles: map<Coordinate, Tile>, path: seq<Coordinate>, c: Coordinate)
    requires forall i :: 0 <= i < |path| ==> path[i] != c
    ensures c !in Elems(Sight(tiles, path))
  {
    SightPrefix(tiles, path);
    var sight := Sight(tiles, path);
    forall i | 0 <= i < |sight|
      ensures sight[i] != c
    {
      assert sight[i] == path[i];
    }
  }

  /** The two edge rays of range 3 whose box holds (1,1) pass beside it. */
  lemma EdgePathsAvoidDiagonal(tiles: map<Coordinate, Tile>, t: Coordinate)
    requires t == Coordinate(2, 1) || t == Coordinate(1, 2)
    ensures Coordinate(1, 1) !in RaySet(tiles, Coordinate(0, 0), t)
  {
    var o := Coordinate(0, 0);
    DiagonalOffPath(t);
    SightAvoids(tiles, Path(LineTo(o, t), Launch(o, t)), Coordinate(1, 1));
    RaySetIsRay(tiles, o, t);
  }

  /** With a range of 3, a viewer never sees the diagonal neighbour (1,1) away, on any board:
      the only edge rays whose box holds it end at (2,1) and (1,2), and their Bresenham paths
      pass through (1,0) and (0,1) instead. */
  lemma DiagonalUnseen(tiles: map<Coordinate, Tile>)
    ensures Coordinate(1, 1) !in VisibleArea(tiles, Coordinate(0, 0), 3)
  {
    var o, c := Coordinate(0, 0), Coordinate(1, 1);
    VisibleAreaMembers(tiles, o, 3, c);
    forall ox, oy | Abs(ox) + Abs(oy) == 3
      ensures !SeenVia(tiles, o, 3, c, ox, oy)
    {
      var t := Coordinate(ox, oy);
      assert t == Coordinate(o.x + ox, o.y + oy);
      if ox >= 1 && oy >= 1 {
        EdgePathsAvoidDiagonal(tiles, t);
      } else if c in RaySet(tiles, o, t) {
        DiagonalBox(tiles, t);
      }
    }
  }

  /** Every cell of the Bresenham path from `start` to `target` is on the board, and none but
      the last is a wall. */
  ghost predicate Unblocked(tiles: map<Coordinate, Tile>, start: Coordinate, target: Coordinate)
  {
    LaunchOnTrack(start, target);
    var path := Path(LineTo(start, target), Launch(start, target));
    (forall i :: 0 <= i < |path| ==> path[i] in tiles) &&
    (forall i :: 0 <= i < |path| - 1 ==> tiles[path[i]] != Wall)
  }

  /** A ray sees the whole of a path that stays on the board and meets a wall at most at its end. */
  lemma {:induction false} SightWhole(tiles: map<Coordinate, Tile>, path: seq<Coordinate>)
    requires forall i :: 0 <= i < |path| ==> path[i] in tiles
    requires forall i :: 0 <= i < |path| - 1 ==> tiles[path[i]] != Wall
    ensures Sight(tiles, path) == path
    decreases |path|
  {
    if |path| > 1 {
      assert forall i :: 0 <= i < |path[1..]| ==> path[1..][i] == path[i + 1];
      SightWhole(tiles, path[1..]);
    }
  }

  /** c is seen on the ray cast to offset (ox, oy), anywhere in the diamond of radius r. */
  predicate SeenWithin(tiles: map<Coordinate, Tile>, pos: Coordinate, r: int, c: Coordinate, ox: int, oy: int)
  {
    Abs(ox) + Abs(oy) <= r && c in RaySet(tiles, pos, Coordinate(pos.x + ox, pos.y + oy))
  }

  /** The area casting only to the edge of the diamond is meant to cover: what the rays cast to
      every cell of the diamond of radius r see. */
  ghost function VisibleAreaFull(tiles: map<Coordinate, Tile>, pos: Coordinate, r: int): set<Coordinate>
  {
    set c | c in tiles && exists ox, oy :: SeenWithin(tiles, pos, r, c, ox, oy)
  }

  /** The edge rays are among the rays to the whole diamond. */
  lemma VisibleAreaWithinFull(tiles: map<Coordinate, Tile>, pos: Coordinate, r: int)
    ensures VisibleArea(tiles, pos, r) <= VisibleAreaFull(tiles, pos, r)
  {
    forall c | c in VisibleArea(tiles, pos, r)
      ensures c in VisibleAreaFull(tiles, pos, r)
    {
      VisibleAreaMembers(tiles, pos, r, c);
      VisibleBounds(tiles, pos, r, c);
      var ox, oy :| SeenVia(tiles, pos, r, c, ox, oy);
      assert SeenWithin(tiles, pos, r, c, ox, oy);
    }
  }

  /** Everything in the full area is on the board and within Manhattan distance r. */
  lemma FullBounds(tiles: map<Coordinate, Tile>, pos: Coordinate, r: int, c: Coordinate)
    requires c in VisibleAreaFull(tiles, pos, r)
    ensures c in tiles && Manhattan(pos, c) <= r
  {
    var ox, oy :| SeenWithin(tiles, pos, r, c, ox, oy);
    RaySetIsRay(tiles, pos, Coordinate(pos.x + ox, pos.y + oy));
    RayBounds(tiles, pos, Coordinate(pos.x + ox, pos.y + oy), c);
  }

  /** Every cell within range whose line from the viewer is unblocked is seen. */
  lemma FullSeesUnblocked(tiles: map<Coordinate, Tile>, pos: Coordinate, r: int, c: Coordinate)
    requires Manhattan(pos, c) <= r && Unblocked(tiles, pos, c)
    ensures c in VisibleAreaFull(tiles, pos, r)
  {
    LaunchOnTrack(pos, c);
    var path := Path(LineTo(pos, c), Launch(pos, c));
    SightWhole(tiles, path);
    PathEnds(LineTo(pos, c), Launch(pos, c));
    assert c == path[|path| - 1];
    RaySetIsRay(tiles, pos, c);
    assert c == Coordinate(pos.x + (c.x - pos.x), pos.y + (c.y - pos.y));
    assert SeenWithin(tiles, pos, r, c, c.x - pos.x, c.y - pos.y);
  }

  /** When every cell within range is on the board and no wall, the full area is exactly the
      cells within range. */
  lemma FullSeesOpenView(tiles: map<Coordinate, Tile>, pos: Coordinate, r: int, c: Coordinate)
    requires forall k :: Manhattan(pos, k) <= r ==> k in tiles && tiles[k] != Wall
    ensures c in VisibleAreaFull(tiles, pos, r) <==> Manhattan(pos, c) <= r
  {
    if c in VisibleAreaFull(tiles, pos, r) {
      FullBounds(tiles, pos, r, c);
    }
    if Manhattan(pos, c) <= r {
      LaunchOnTrack(pos, c);
      var path := Path(LineTo(pos, c), Launch(pos, c));
      forall i | 0 <= i < |path|
        ensures path[i] in tiles && tiles[path[i]] != Wall
      {
        PathWithinReach(pos, c, i);
      }
      FullSeesUnblocked(tiles, pos, r, c);
    }
  }
}
