/** BotBash.Core/Cell.cs: one square of the board, shared by reference. */
module Cells {
  import opened Entities
  import Bots

  /** A mutable holder of an optional occupant and the tile underneath it. */
  class Cell {
    var player: Bots.TestBot?
    var construct: Tile

    constructor (player: Bots.TestBot?, construct: Tile)
      ensures this.player == player && this.construct == construct
    {
      this.player := player;
      this.construct := construct;
    }

    /** The `Construct` setter: the occupant is left alone. */
    method SetConstruct(construct: Tile)
      modifies this
      ensures this.construct == construct && player == old(player)
    {
      this.construct := construct;
    }

    /** The `Player` setter: the tile is left alone. */
    method SetPlayer(player: Bots.TestBot?)
      modifies this
      ensures this.player == player && construct == old(construct)
    {
      this.player := player;
    }
  }
}
