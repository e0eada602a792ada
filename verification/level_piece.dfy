/** `LevelPiece`: an immutable rectangular block of tile rows, its validating
    constructor, and `placeInModel`, which stamps it into a level model. Also
    the exit segment, which is the one piece built at generation time. */
module Pieces {
  import opened Tiles
  import opened Results
  import opened LevelModels

  /** A piece as the constructor leaves it: the rows plus the two derived
      sizes. `rows[y][x]` is the tile in row `y` (0 is the top) and column `x`. */
  datatype LevelPiece = LevelPiece(rows: seq<string>, height: nat, width: nat) {

    /** What the constructor's checks guarantee of every piece it returns. */
    predicate Valid() {
      && height == |rows| >= 1
      && width == |rows[0]|
      && forall y :: 0 <= y < |rows| ==> |rows[y]| == width
    }

    /** The tile in column `x` of row `y`. */
    function Tile(x: int, y: int): char
      requires Valid() && 0 <= x < width && 0 <= y < height
    {
      rows[y][x]
    }
  }

  /** The `rows.all { it.length == rowLength }` test. */
  function AllHaveLength(rows: seq<string>, n: nat): (b: bool)
    ensures b <==> forall y :: 0 <= y < |rows| ==> |rows[y]| == n
  {
    if |rows| == 0 then true
    else |rows[|rows| - 1]| == n && AllHaveLength(rows[..|rows| - 1], n)
  }

  /** The constructor: a piece exists only for a non-empty array of rows
      that all have the length of row 0. */
  function MakePiece(rows: seq<string>): (r: Result<LevelPiece>)
    ensures r.Success? <==> |rows| > 0 && forall y :: 0 <= y < |rows| ==> |rows[y]| == |rows[0]|
    ensures r.Failure? ==> r.error == (if |rows| == 0 then NoRows else RaggedRows)
    ensures r.Success? ==> r.value.Valid() && r.value.rows == rows
    ensures r.Success? ==> r.value.height == |rows| && r.value.width == |rows[0]|
  {
    if |rows| == 0 then Failure(NoRows)
    else if !AllHaveLength(rows, |rows[0]|) then Failure(RaggedRows)
    else Success(LevelPiece(rows, |rows|, |rows[0]|))
  }

  /** Rebuilding a piece from its own rows gives the same piece back: the
      derived sizes are a function of the rows alone. */
  lemma MakePieceRoundTrip(p: LevelPiece)
    requires p.Valid()
    ensures MakePiece(p.rows) == Success(p)
  {
  }

  /** `placeInModel`: for every row `y` and column `x` of the piece, in that
      order, sets cell `(startX + x, y)` to the tile unless the tile is
      EMPTY. */
  method PlaceInModel(piece: LevelPiece, model: LevelModel, startX: int) returns (m: LevelModel)
    requires piece.Valid() && model.Valid()
    requires 0 <= startX && startX + piece.width <= model.width && piece.height <= model.height
    ensures m.Valid() && m.SameShape(model)
    // a non-empty tile is written at its offset position
    ensures forall x, y | startX <= x < startX + piece.width && 0 <= y < piece.height ::
              piece.Tile(x - startX, y) != EMPTY ==> m.Cell(x, y) == piece.Tile(x - startX, y)
    // an empty tile leaves the cell under it alone
    ensures forall x, y | startX <= x < startX + piece.width && 0 <= y < piece.height ::
              piece.Tile(x - startX, y) == EMPTY ==> m.Cell(x, y) == model.Cell(x, y)
    // nothing outside the piece's footprint changes
    ensures forall x, y | model.InBounds(x, y) && !(startX <= x < startX + piece.width && y < piece.height) ::
              m.Cell(x, y) == model.Cell(x, y)
  {
    m := model;
    var y := 0;
    while y < piece.height
      invariant 0 <= y <= piece.height
      invariant m.Valid() && m.SameShape(model)
      invariant forall x', y' :: model.InBounds(x', y') ==>
                  m.Cell(x', y') == Stamped(piece, model, startX, x', y', y, 0)
    {
      var x := 0;
      while x < piece.width
        invariant 0 <= x <= piece.width
        invariant m.Valid() && m.SameShape(model)
        invariant forall x', y' :: model.InBounds(x', y') ==>
                    m.Cell(x', y') == Stamped(piece, model, startX, x', y', y, x)
      {
        var block := piece.rows[y][x];
        if block != EMPTY {
          m := SetBlock(m, startX + x, y, block);
        }
        x := x + 1;
      }
      y := y + 1;
    }
  }

  /** The content of cell `(x', y')` once `placeInModel` has handled every
      row above `y` and the first `x` columns of row `y`. */
  ghost function Stamped(piece: LevelPiece, model: LevelModel, startX: int, x': int, y': int,
                         y: int, x: int): char
    requires piece.Valid() && model.Valid() && model.InBounds(x', y')
  {
    var px := x' - startX;
    if 0 <= px < piece.width && 0 <= y' < piece.height && (y' < y || (y' == y && px < x))
       && piece.rows[y'][px] != EMPTY
    then piece.rows[y'][px]
    else model.Cell(x', y')
  }

  /** `c.repeat(n)`. */
  function Repeat(c: char, n: nat): (s: string)
    ensures |s| == n
    ensures forall i :: 0 <= i < n ==> s[i] == c
  {
    if n == 0 then [] else Repeat(c, n - 1) + [c]
  }

  /** `generateFinisPiece`: the exit segment over the `remainingWidth`
      columns that the regular pieces leave free. */
  function GenerateFinisPiece(remainingWidth: int): (r: Result<LevelPiece>)
    ensures r.Failure? <==> remainingWidth < 3
    ensures r.Failure? ==> r.error == EndTooSmall
    ensures r.Success? ==> && r.value.Valid()
                           && r.value.width == remainingWidth
                           && r.value.height == PIECE_HEIGHT
    ensures r.Success? ==> IsExitSegment(r.value)
  {
    if remainingWidth < 3 then Failure(EndTooSmall)
    else
      var empty := Repeat(EMPTY, remainingWidth);
      var ground := Repeat('X', remainingWidth);
      var finish := Repeat(EMPTY, remainingWidth - 3) + "-F-";
      var block := Repeat(EMPTY, remainingWidth - 3) + "-#-";
      var rows := seq(PIECE_HEIGHT, _ => empty)[14 := ground][15 := ground][13 := block][12 := finish];
      MakePiece(rows)
  }

  /** The exit segment's layout, cell by cell: ground on the two bottom
      rows, the flag in row 12 and a block under it in row 13, both in the
      second-to-last column, and EMPTY everywhere else. */
  ghost predicate IsExitSegment(p: LevelPiece)
    requires p.Valid() && p.height == PIECE_HEIGHT && p.width >= 2
  {
    forall x, y :: 0 <= x < p.width && 0 <= y < PIECE_HEIGHT ==>
      p.Tile(x, y) == (if y >= 14 then GROUND
                       else if y == 13 && x == p.width - 2 then EXIT_BLOCK
                       else if y == 12 && x == p.width - 2 then EXIT_FLAG
                       else EMPTY)
  }
}
