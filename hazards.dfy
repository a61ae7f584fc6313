/** The hazard rules of `Engine.WorldEdits` in BotBash.Core/Engine.cs, stated on a plain map from
    board position to tile: every call turns the warned cells into spikes, and every fifth call
    warns of as many free (empty, unoccupied) cells as a tenth of the whole board, or of every
    free cell when there are fewer. */
module Hazards {
  import opened Coordinates
  import opened Entities

  /** The number of calls between two rounds of warnings, and the countdown an engine starts with. */
  const Period := 5

  /** The countdown after one call: decremented, and back to `Period` once it reaches zero. */
  function NextCountdown(countdown: int): (next: int)
    ensures next == Period || next == countdown - 1
  {
    if countdown - 1 == 0 then Period else countdown - 1
  }

  /** Whether the call made with this countdown warns of new danger. */
  predicate PlacesDanger(countdown: int)
  {
    countdown - 1 == 0
  }

  /** How many cells are warned of on a board of `cells` cells: a tenth, rounded down. */
  function Amount(cells: nat): (amount: nat)
    ensures 10 * amount <= cells < 10 * amount + 10
  {
    cells / 10
  }

  function Min(a: int, b: int): int
  {
    if a <= b then a else b
  }

  /** The cells that may be warned of: empty and not occupied by a bot. */
  function Candidates(tiles: map<Coordinate, Tile>, occupied: set<Coordinate>): (candidates: set<Coordinate>)
    ensures candidates <= tiles.Keys
  {
    set k | k in tiles && tiles[k] == Empty && k !in occupied
  }

  /** No position occurs twice. */
  predicate Distinct(s: seq<Coordinate>)
  {
    forall i, j :: 0 <= i < j < |s| ==> s[i] != s[j]
  }

  /** `order` lists every cell of `cells` exactly once: a random ordering of them. */
  predicate IsShuffle(order: seq<Coordinate>, cells: set<Coordinate>)
  {
    Distinct(order) && Elems(order) == cells
  }

  /** The board with each of `cells` set to `t` and every other position left alone. */
  function Painted(tiles: map<Coordinate, Tile>, cells: set<Coordinate>, t: Tile): map<Coordinate, Tile>
  {
    map k | k in tiles :: if k in cells then t else tiles[k]
  }

  /** The cells of a board that carry a warning. */
  function DangerCells(tiles: map<Coordinate, Tile>): set<Coordinate>
  {
    set k | k in tiles && tiles[k] == Danger
  }

  /** The board after the warned cells have turned into spikes. */
  function Spiked(tiles: map<Coordinate, Tile>): map<Coordinate, Tile>
  {
    Painted(tiles, DangerCells(tiles), Spike)
  }

  /** The first `Amount` cells of the shuffled candidates, or all of them when there are fewer. */
  function Taken(tiles: map<Coordinate, Tile>, order: seq<Coordinate>): seq<Coordinate>
  {
    order[..Min(Amount(|tiles|), |order|)]
  }

  /** The cells newly warned of by a call made with `countdown`. */
  function Chosen(tiles: map<Coordinate, Tile>, countdown: int, order: seq<Coordinate>): set<Coordinate>
  {
    if PlacesDanger(countdown) then Elems(Taken(tiles, order)) else {}
  }

  /** The board after one call of `WorldEdits`. */
  function Hazard(tiles: map<Coordinate, Tile>, countdown: int, order: seq<Coordinate>): map<Coordinate, Tile>
  {
    Painted(Spiked(tiles), Chosen(tiles, countdown, order), Danger)
  }

  /** The cells taken from a shuffle of the candidates are positions of the board. */
  lemma TakenOnBoard(tiles: map<Coordinate, Tile>, occupied: set<Coordinate>, order: seq<Coordinate>)
    requires IsShuffle(order, Candidates(tiles, occupied))
    ensures forall j :: 0 <= j < |Taken(tiles, order)| ==> Taken(tiles, order)[j] in tiles
  {
    forall j | 0 <= j < |Taken(tiles, order)|
      ensures Taken(tiles, order)[j] in tiles
    {
      assert Taken(tiles, order)[j] == order[j];
      assert order[j] in Elems(order);
    }
  }

  /** Turning warnings into spikes frees no cell and takes none: the candidates, and with them
      the cells taken from their shuffle, are the same before and after. */
  lemma SpikesKeepCandidates(tiles: map<Coordinate, Tile>, occupied: set<Coordinate>, order: seq<Coordinate>)
    ensures Candidates(Spiked(tiles), occupied) == Candidates(tiles, occupied)
    ensures Taken(Spiked(tiles), order) == Taken(tiles, order)
  {
    assert Spiked(tiles).Keys == tiles.Keys;
  }

  // ---------------------------------------------------------------------------------------------
  // The countdown

  /** The countdown stays between 1 and 5, and a call warns exactly when the countdown it starts
      from is 1, which is when it comes back to 5. */
  lemma CountdownInRange(countdown: int)
    requires 1 <= countdown <= Period
    ensures 1 <= NextCountdown(countdown) <= Period
    ensures PlacesDanger(countdown) <==> countdown == 1
    ensures PlacesDanger(countdown) <==> NextCountdown(countdown) == Period
  {
  }

  /** The countdown after n calls. */
  function CountdownAfter(countdown: int, n: nat): int
  {
    if n == 0 then countdown else NextCountdown(CountdownAfter(countdown, n - 1))
  }

  /** From the initial countdown, the countdown after n calls is 5 - n mod 5. */
  lemma {:induction false} CountdownCycle(n: nat)
    ensures CountdownAfter(Period, n) == Period - n % Period
    decreases n
  {
    if n > 0 {
      CountdownCycle(n - 1);
    }
  }

  /** From the initial countdown, the n-th call (counted from 1) warns of new danger exactly when
      n is a multiple of 5. */
  lemma EveryFifthCall(n: nat)
    requires n >= 1
    ensures PlacesDanger(CountdownAfter(Period, n - 1)) <==> n % Period == 0
  {
    CountdownCycle(n - 1);
  }

  // ---------------------------------------------------------------------------------------------
  // The board

  /** A call changes no position of the board. */
  lemma HazardKeys(tiles: map<Coordinate, Tile>, countdown: int, order: seq<Coordinate>)
    ensures Hazard(tiles, countdown, order).Keys == tiles.Keys
  {
  }

  /** What a call does to one cell, when on a warning call `order` is a shuffle of the
      candidates (on any other call it is not looked at): a warned cell
      becomes a spike, a chosen cell becomes a warning, and every other cell is left alone; only
      empty, unoccupied cells are chosen, so walls and spikes never change. */
  lemma HazardCell(tiles: map<Coordinate, Tile>, occupied: set<Coordinate>, countdown: int,
                   order: seq<Coordinate>, k: Coordinate)
    requires PlacesDanger(countdown) ==> IsShuffle(order, Candidates(tiles, occupied))
    requires k in tiles
    ensures tiles[k] == Danger ==> Hazard(tiles, countdown, order)[k] == Spike
    ensures tiles[k] == Wall ==> Hazard(tiles, countdown, order)[k] == Wall
    ensures tiles[k] == Spike ==> Hazard(tiles, countdown, order)[k] == Spike
    ensures k in occupied ==> Hazard(tiles, countdown, order)[k] != Danger
    ensures tiles[k] == Empty ==>
              Hazard(tiles, countdown, order)[k] == (if k in Chosen(tiles, countdown, order) then Danger else Empty)
  {
    var taken := Taken(tiles, order);
    assert Elems(taken) <= Elems(order) by {
      forall c | c in Elems(taken) ensures c in Elems(order) {
        var i :| 0 <= i < |taken| && taken[i] == c;
        assert order[i] == c;
      }
    }
  }

  /** A board that agrees at every position with painting `cells` in `t` is that painting. */
  lemma PaintedByCell(tiles: map<Coordinate, Tile>, cells: set<Coordinate>, t: Tile, after: map<Coordinate, Tile>)
    requires after.Keys == tiles.Keys
    requires forall k :: k in tiles ==> after[k] == if k in cells then t else tiles[k]
    ensures after == Painted(tiles, cells, t)
  {
  }

  /** After a call the warned cells are exactly the chosen ones: none at all unless the countdown
      ran out. */
  lemma HazardDanger(tiles: map<Coordinate, Tile>, occupied: set<Coordinate>, countdown: int, order: seq<Coordinate>)
    requires PlacesDanger(countdown) ==> IsShuffle(order, Candidates(tiles, occupied))
    ensures DangerCells(Hazard(tiles, countdown, order)) == Chosen(tiles, countdown, order)
    ensures Chosen(tiles, countdown, order) <= Candidates(tiles, occupied)
    ensures !PlacesDanger(countdown) ==> DangerCells(Hazard(tiles, countdown, order)) == {}
  {
    var after := Hazard(tiles, countdown, order);
    forall k | k in Chosen(tiles, countdown, order)
      ensures k in Candidates(tiles, occupied)
    {
      HazardCell(tiles, occupied, countdown, order, k);
    }
    forall k | k in tiles
      ensures k in DangerCells(after) <==> k in Chosen(tiles, countdown, order)
    {
      HazardCell(tiles, occupied, countdown, order, k);
    }
  }

  /** A duplicate-free sequence has as many elements as positions. */
  lemma {:induction false} DistinctCount(s: seq<Coordinate>)
    requires Distinct(s)
    ensures |Elems(s)| == |s|
    decreases |s|
  {
    if s != [] {
      var rest := s[1..];
      assert Distinct(rest) by {
        forall i, j | 0 <= i < j < |rest| ensures rest[i] != rest[j] {
          assert rest[i] == s[i + 1] && rest[j] == s[j + 1];
        }
      }
      DistinctCount(rest);
      assert s == [s[0]] + rest;
      assert s[0] !in Elems(rest) by {
        forall j | 0 <= j < |rest| ensures rest[j] != s[0] {
          assert rest[j] == s[j + 1];
        }
      }
      assert Elems(s) == {s[0]} + Elems(rest);
    }
  }

  /** A call that warns warns of a tenth of the board's cells, or of every candidate when there
      are fewer candidates than that. */
  lemma PlacedCount(tiles: map<Coordinate, Tile>, occupied: set<Coordinate>, countdown: int, order: seq<Coordinate>)
    requires IsShuffle(order, Candidates(tiles, occupied))
    requires PlacesDanger(countdown)
    ensures |DangerCells(Hazard(tiles, countdown, order))| == Min(Amount(|tiles|), |Candidates(tiles, occupied)|)
  {
    HazardDanger(tiles, occupied, countdown, order);
    var taken := Taken(tiles, order);
    assert Distinct(taken) by {
      forall i, j | 0 <= i < j < |taken| ensures taken[i] != taken[j] {
        assert taken[i] == order[i] && taken[j] == order[j];
      }
    }
    DistinctCount(taken);
    DistinctCount(order);
  }
}
