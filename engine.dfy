/** BotBash.Core/Engine.cs: the engine that edits the board between turns. */
module Engines {
  import opened Coordinates
  import opened Entities
  import opened Worlds
  import opened Hazards

  /** Lines 33-38 of `WorldEdits`: every warned cell becomes a spike; every other tile, every
      bot and every position is left alone. */
  method SpikeDanger(world: World)
    requires world.Valid()
    modifies world.layout.Values
    ensures world.layout == old(world.layout)
    ensures world.Tiles() == Spiked(old(world.Tiles()))
    ensures world.Players() == old(world.Players()) && world.Occupied() == old(world.Occupied())
  {
    ghost var tiles, players := world.Tiles(), world.Players();
    var layout := world.layout;
    var dangerCells := set k | k in layout && layout[k].construct == Danger;
    assert dangerCells == DangerCells(tiles);
    var pending := dangerCells;
    while pending != {}
      invariant pending <= dangerCells
      invariant forall k :: k in layout ==>
                  layout[k].construct == if k in dangerCells && k !in pending then Spike else tiles[k]
      invariant forall k :: k in layout ==> layout[k].player == players[k]
      decreases pending
    {
      var cell :| cell in pending;
      layout[cell].SetConstruct(Spike);
      pending := pending - {cell};
    }
    PaintedByCell(tiles, dangerCells, Spike, world.Tiles());
  }

  /** Lines 43-51 of `WorldEdits`, with the random ordering of the candidates as `order`: the
      first tenth-of-the-board cells of `order` become warnings; every other tile, every bot and
      every position is left alone. */
  method PlaceDanger(world: World, order: seq<Coordinate>)
    requires world.Valid()
    requires IsShuffle(order, Candidates(world.Tiles(), world.Occupied()))
    modifies world.layout.Values
    ensures world.layout == old(world.layout)
    ensures world.Tiles() == Painted(old(world.Tiles()), Elems(Taken(old(world.Tiles()), order)), Danger)
    ensures world.Players() == old(world.Players())
  {
    ghost var tiles, players := world.Tiles(), world.Players();
    TakenOnBoard(tiles, world.Occupied(), order);
    var layout := world.layout;
    var amount := |layout| / 10;
    var zones := order[..Min(amount, |order|)];
    assert zones == Taken(tiles, order);
    ghost var warned: set<Coordinate> := {};
    for i := 0 to |zones|
      invariant warned <= Elems(zones)
      invariant forall j :: 0 <= j < i ==> zones[j] in warned
      invariant forall k :: k in layout ==>
                  layout[k].construct == if k in warned then Danger else tiles[k]
      invariant forall k :: k in layout ==> layout[k].player == players[k]
    {
      layout[zones[i]].SetConstruct(Danger);
      warned := warned + {zones[i]};
    }
    assert warned == Elems(zones);
    PaintedByCell(tiles, warned, Danger, world.Tiles());
  }

  /** The board edits of `WorldEdits`: the spikes of lines 33-38 and, when `placing`, the
      warnings of lines 43-51. */
  method EditBoard(world: World, placing: bool, order: seq<Coordinate>)
    requires world.Valid()
    requires placing ==> IsShuffle(order, Candidates(world.Tiles(), world.Occupied()))
    modifies world.layout.Values
    ensures world.layout == old(world.layout)
    ensures world.Tiles() ==
              Painted(Spiked(old(world.Tiles())), if placing then Elems(Taken(old(world.Tiles()), order)) else {}, Danger)
    ensures world.Players() == old(world.Players())
  {
    ghost var start, occupied := world.Tiles(), world.Occupied();
    SpikeDanger(world);
    if placing {
      SpikesKeepCandidates(start, occupied, order);
      PlaceDanger(world, order);
    } else {
      PaintedByCell(Spiked(start), {}, Danger, Spiked(start));
    }
  }

  /** A board whose object and cells are untouched still has the same tiles and bots. */
  twostate lemma BoardKept(world: World)
    requires unchanged(world) && unchanged(old(world.layout.Values))
    ensures world.layout == old(world.layout) && (world.Valid() <==> old(world.Valid()))
    ensures world.Tiles() == old(world.Tiles()) && world.Players() == old(world.Players())
  {
  }

  class Engine {
    var gameWorld: World
    var hazardCountdown: int

    /** Between calls the countdown lies in 1..5. */
    ghost predicate Valid()
      reads this
    {
      1 <= hazardCountdown <= Period
    }

    constructor (gameWorld: World)
      ensures this.gameWorld == gameWorld && hazardCountdown == Period
      ensures Valid()
    {
      this.gameWorld := gameWorld;
      hazardCountdown := Period;
    }

    /** `WorldEdits`, with the random ordering of the empty, unoccupied cells as the parameter
        `order`. It counts the countdown down, turns every warned cell into a spike, and when the
        countdown runs out resets it and warns of the first tenth-of-the-board cells of `order`.
        Only the tiles change: the positions and the bots stay where they are. The countdown is
        worked out in a local variable and stored once the board is edited; the board edits do
        not read it, so the order of the two writes cannot be observed. */
    method WorldEdits(order: seq<Coordinate>)
      requires Valid() && gameWorld.Valid()
      requires PlacesDanger(hazardCountdown) ==> IsShuffle(order, Candidates(gameWorld.Tiles(), gameWorld.Occupied()))
      modifies this`hazardCountdown, gameWorld.layout.Values
      ensures hazardCountdown == NextCountdown(old(hazardCountdown)) && Valid()
      ensures gameWorld.layout == old(gameWorld.layout) && gameWorld.Valid()
      ensures gameWorld.Tiles() == Hazard(old(gameWorld.Tiles()), old(hazardCountdown), order)
      ensures gameWorld.Players() == old(gameWorld.Players())
    {
      var countdown := hazardCountdown - 1;
      var placing := countdown == 0;
      EditBoard(gameWorld, placing, order);
      label edited:
      if placing {
        countdown := Period;
      }
      hazardCountdown := countdown;
      BoardKept@edited(gameWorld);
    }
  }
}
