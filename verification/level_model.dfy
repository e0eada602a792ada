/** The grid the generator draws into: the engine's level model, reduced to the
    three operations the generator uses (clear, set one block, read the size). */
module LevelModels {
  import opened Tiles

  /** A `width` x `height` map of tiles, stored column-major as `tiles[x][y]`;
      row 0 is the top row. */
  datatype LevelModel = LevelModel(width: nat, height: nat, tiles: seq<seq<char>>) {

    predicate Valid() {
      && |tiles| == width
      && forall x :: 0 <= x < |tiles| ==> |tiles[x]| == height
    }

    predicate InBounds(x: int, y: int) {
      0 <= x < width && 0 <= y < height
    }

    function Cell(x: int, y: int): char
      requires Valid() && InBounds(x, y)
    {
      tiles[x][y]
    }

    predicate SameShape(other: LevelModel) {
      width == other.width && height == other.height
    }
  }

  /** An all-empty model of the given size. */
  function EmptyModel(width: nat, height: nat): (m: LevelModel)
    ensures m.Valid() && m.width == width && m.height == height
    ensures forall x, y :: 0 <= x < width && 0 <= y < height ==> m.Cell(x, y) == EMPTY
  {
    LevelModel(width, height, seq(width, _ => seq(height, _ => EMPTY)))
  }

  /** `clearMap`: every cell becomes EMPTY, the size is kept. */
  function ClearMap(model: LevelModel): (m: LevelModel)
    ensures m.Valid() && m.SameShape(model)
    ensures forall x, y :: model.InBounds(x, y) ==> m.Cell(x, y) == EMPTY
  {
    EmptyModel(model.width, model.height)
  }

  /** `setBlock` on an in-bounds cell: that cell becomes `tile`, every other
      cell keeps its value. */
  function SetBlock(model: LevelModel, x: int, y: int, tile: char): (m: LevelModel)
    requires model.Valid() && model.InBounds(x, y)
    ensures m.Valid() && m.SameShape(model)
    ensures m.Cell(x, y) == tile
    ensures forall x', y' :: model.InBounds(x', y') && (x', y') != (x, y) ==>
              m.Cell(x', y') == model.Cell(x', y')
  {
    model.(tiles := model.tiles[x := model.tiles[x][y := tile]])
  }
}
