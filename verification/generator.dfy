/** `getGeneratedLevel`: clear the model, allocate the width budget, shuffle
    the pieces, stamp them side by side, add the exit segment, check the
    widths, and put the start marker and a ground block in column 0. */
module Generator {
  import opened Tiles
  import opened Results
  import opened LevelModels
  import opened Pieces
  import opened Plans
  import opened Allocator

  /** What a generation run produces: the filled model, the allocation the
      pieces came from, the pieces in the order they were stamped, and the
      exit segment. */
  datatype Level = Level(model: LevelModel, allocation: Allocation, order: seq<Entry>, finish: LevelPiece)

  /** Row `y` of the finished layout: the stamped pieces side by side, then
      the exit segment. */
  function LevelRow(order: seq<Entry>, finish: LevelPiece, y: nat): (row: string)
    requires AllFullHeight(order) && finish.Valid() && finish.height == PIECE_HEIGHT && y < PIECE_HEIGHT
    ensures |row| == SumWidths(order) + finish.width
  {
    ConcatRow(order, y) + finish.rows[y]
  }

  /** The tile a generated level holds at `(x, y)`: the two column-0
      overrides, otherwise the layout's tile in the 16 piece rows, and EMPTY
      in any row below them. */
  ghost function ExpectedTile(height: nat, order: seq<Entry>, finish: LevelPiece, x: nat, y: nat): char
    requires AllFullHeight(order) && finish.Valid() && finish.height == PIECE_HEIGHT
    requires x < SumWidths(order) + finish.width
  {
    if x == 0 && y == 0 then GROUND
    else if x == 0 && y == height / 2 then MARIO_START
    else if y < PIECE_HEIGHT then LevelRow(order, finish, y)[x]
    else EMPTY
  }

  /** What the stamping stage leaves for an allocation `a`: the stamped
      order is a permutation of its plan, the exit segment covers exactly the columns left
      over, and every cell holds its expected tile. */
  ghost predicate AssembledFrom(model: LevelModel, a: Allocation, lv: Level) {
    && lv.allocation == a
    && multiset(lv.order) == multiset(a.plan)
    && AllFullHeight(lv.order)
    && GenerateFinisPiece(a.widthLeft) == Success(lv.finish)
    && SumWidths(lv.order) + lv.finish.width == model.width
    && lv.model.Valid() && lv.model.SameShape(model)
    && forall x, y | model.InBounds(x, y) ::
         lv.model.Cell(x, y) == ExpectedTile(model.height, lv.order, lv.finish, x, y)
  }

  /** A successful run on `model`: the allocation is the one the allocator
      specifies, and the level is assembled from it. Which permutation the
      shuffle picked is stated separately, by `GetGeneratedLevel`. */
  ghost predicate GeneratedLevel(model: LevelModel, banks: Banks, pick: nat -> nat, lv: Level)
    requires banks.Valid()
  {
    AllocationOf(model.width, banks, pick, lv.allocation) && AssembledFrom(model, lv.allocation, lv)
  }

  /** The stamping loop: each piece is placed at the summed width of the
      pieces before it. On a cleared model this lays the pieces' rows side by
      side from column 0 and leaves the rest EMPTY. */
  method StampPieces(model: LevelModel, order: seq<Entry>) returns (m: LevelModel, currentX: nat)
    requires model.Valid() && model.height >= PIECE_HEIGHT
    requires AllFullHeight(order) && SumWidths(order) <= model.width
    requires forall x, y | model.InBounds(x, y) :: model.Cell(x, y) == EMPTY
    ensures m.Valid() && m.SameShape(model)
    ensures currentX == SumWidths(order)
    ensures forall x, y | model.InBounds(x, y) ::
              m.Cell(x, y) == if x < currentX && y < PIECE_HEIGHT then ConcatRow(order, y)[x] else EMPTY
  {
    m := model;
    currentX := 0;
    var i := 0;
    while i < |order|
      invariant 0 <= i <= |order|
      invariant AllFullHeight(order[..i])
      invariant currentX == SumWidths(order[..i])
      invariant m.Valid() && m.SameShape(model)
      invariant forall x, y | model.InBounds(x, y) ::
                  m.Cell(x, y) == if x < currentX && y < PIECE_HEIGHT then ConcatRow(order[..i], y)[x] else EMPTY
    {
      var piece := order[i].piece;
      assert order[..i + 1] == order[..i] + [order[i]];
      assert order[..i + 1][..i] == order[..i];
      SumWidthsPrefix(order, i + 1);
      var before := m;
      m := PlaceInModel(piece, m, currentX);
      StampedOneMore(model, before, m, order, i, currentX);
      currentX := currentX + piece.width;
      i := i + 1;
    }
    assert order[..i] == order;
  }

  /** One round of the stamping loop: placing piece `i` at the summed width
      of the pieces before it extends the laid-out rows by that piece. */
  lemma StampedOneMore(model: LevelModel, before: LevelModel, m: LevelModel, order: seq<Entry>,
                       i: nat, currentX: nat)
    requires model.Valid() && model.height >= PIECE_HEIGHT
    requires AllFullHeight(order) && i < |order| && currentX == SumWidths(order[..i])
    requires currentX + order[i].piece.width <= model.width
    requires before.Valid() && before.SameShape(model) && m.Valid() && m.SameShape(model)
    requires forall x, y | model.InBounds(x, y) ::
               before.Cell(x, y) == if x < currentX && y < PIECE_HEIGHT then ConcatRow(order[..i], y)[x] else EMPTY
    requires forall x, y | currentX <= x < currentX + order[i].piece.width && 0 <= y < PIECE_HEIGHT ::
               order[i].piece.Tile(x - currentX, y) != EMPTY ==> m.Cell(x, y) == order[i].piece.Tile(x - currentX, y)
    requires forall x, y | currentX <= x < currentX + order[i].piece.width && 0 <= y < PIECE_HEIGHT ::
               order[i].piece.Tile(x - currentX, y) == EMPTY ==> m.Cell(x, y) == before.Cell(x, y)
    requires forall x, y | model.InBounds(x, y) && !(currentX <= x < currentX + order[i].piece.width && y < PIECE_HEIGHT) ::
               m.Cell(x, y) == before.Cell(x, y)
    ensures AllFullHeight(order[..i + 1]) && SumWidths(order[..i + 1]) == currentX + order[i].piece.width
    ensures forall x, y | model.InBounds(x, y) ::
              m.Cell(x, y) == if x < currentX + order[i].piece.width && y < PIECE_HEIGHT
                              then ConcatRow(order[..i + 1], y)[x] else EMPTY
  {
    var piece := order[i].piece;
    assert order[..i + 1] == order[..i] + [order[i]];
    assert order[..i + 1][..i] == order[..i];
    assert AllFullHeight(order[..i + 1]);
    forall x, y | model.InBounds(x, y)
      ensures m.Cell(x, y) ==
              if x < currentX + piece.width && y < PIECE_HEIGHT then ConcatRow(order[..i + 1], y)[x] else EMPTY
    {
      if currentX <= x < currentX + piece.width && y < PIECE_HEIGHT {
        PieceAtOffset(order[..i + 1], i, x - currentX, y);
      } else if x < currentX && y < PIECE_HEIGHT {
        assert ConcatRow(order[..i + 1], y) == ConcatRow(order[..i], y) + piece.rows[y];
      }
    }
  }

  /** Stamps the exit segment right after the regular pieces, where the
      model is still EMPTY, so that the pieces and the segment together lay
      out each of the 16 piece rows in full. */
  method StampFinish(model: LevelModel, order: seq<Entry>, finish: LevelPiece, currentX: nat)
    returns (m: LevelModel)
    requires model.Valid() && model.height >= PIECE_HEIGHT
    requires AllFullHeight(order) && finish.Valid() && finish.height == PIECE_HEIGHT
    requires currentX == SumWidths(order) && currentX + finish.width == model.width
    requires forall x, y | model.InBounds(x, y) ::
               model.Cell(x, y) == if x < currentX && y < PIECE_HEIGHT then ConcatRow(order, y)[x] else EMPTY
    ensures m.Valid() && m.SameShape(model)
    ensures forall x, y | model.InBounds(x, y) ::
              m.Cell(x, y) == if y < PIECE_HEIGHT then LevelRow(order, finish, y)[x] else EMPTY
  {
    m := PlaceInModel(finish, model, currentX);
  }

  /** The two final `setBlock` calls: the start marker at the vertical
      centre of column 0, then ground at the top of column 0. */
  method PlaceStart(model: LevelModel) returns (m: LevelModel)
    requires model.Valid() && model.width > 0 && model.height > 1
    ensures m.Valid() && m.SameShape(model)
    ensures m.Cell(0, model.height / 2) == MARIO_START
    ensures m.Cell(0, 0) == GROUND
    ensures forall x, y | model.InBounds(x, y) && x != 0 :: m.Cell(x, y) == model.Cell(x, y)
    ensures forall y | 0 < y < model.height && y != model.height / 2 :: m.Cell(0, y) == model.Cell(0, y)
  {
    m := SetBlock(model, 0, model.height / 2, MARIO_START);
    m := SetBlock(m, 0, 0, GROUND);
  }

  /** Everything `getGeneratedLevel` does once the pieces are shuffled:
      stamp them and the exit segment, check the widths and place the start
      marker. The width check cannot fail. */
  method Assemble(model: LevelModel, a: Allocation, order: seq<Entry>) returns (r: Result<Level>)
    requires model.Valid() && model.height >= PIECE_HEIGHT
    requires Accounted(model.width, a) && a.widthLeft >= MIN_FINISH_WIDTH
    requires multiset(order) == multiset(a.plan) && AllFullHeight(order) && SumWidths(order) == a.totalWidth
    requires forall x, y | model.InBounds(x, y) :: model.Cell(x, y) == EMPTY
    ensures r.Success? && AssembledFrom(model, a, r.value) && r.value.order == order
  {
    // build the pieces into the model
    var m, currentX := StampPieces(model, order);

    // generate the end of the level
    var finish := GenerateFinisPiece(model.width - a.totalWidth).value;
    m := StampFinish(m, order, finish, currentX);
    var totalWidth := a.totalWidth + finish.width;
    if totalWidth != model.width {
      return Failure(WidthMismatch);
    }

    var laid := m;
    m := PlaceStart(m);
    OverridesGiveExpected(laid, m, order, finish);
    return Success(Level(m, a, order, finish));
  }

  /** With the layout stamped in full, the column-0 overrides leave every
      cell holding its expected tile. */
  lemma OverridesGiveExpected(laid: LevelModel, m: LevelModel, order: seq<Entry>, finish: LevelPiece)
    requires laid.Valid() && laid.width > 0 && laid.height >= PIECE_HEIGHT
    requires AllFullHeight(order) && finish.Valid() && finish.height == PIECE_HEIGHT
    requires SumWidths(order) + finish.width == laid.width
    requires forall x, y | laid.InBounds(x, y) ::
               laid.Cell(x, y) == if y < PIECE_HEIGHT then LevelRow(order, finish, y)[x] else EMPTY
    requires m.Valid() && m.SameShape(laid)
    requires m.Cell(0, laid.height / 2) == MARIO_START && m.Cell(0, 0) == GROUND
    requires forall x, y | laid.InBounds(x, y) && x != 0 :: m.Cell(x, y) == laid.Cell(x, y)
    requires forall y | 0 < y < laid.height && y != laid.height / 2 :: m.Cell(0, y) == laid.Cell(0, y)
    ensures forall x, y | laid.InBounds(x, y) :: m.Cell(x, y) == ExpectedTile(laid.height, order, finish, x, y)
  {
    forall x, y | laid.InBounds(x, y)
      ensures m.Cell(x, y) == ExpectedTile(laid.height, order, finish, x, y)
    {
      if x != 0 || (y != 0 && y != laid.height / 2) {
        assert m.Cell(x, y) == laid.Cell(x, y);
      }
    }
  }

  /** `getGeneratedLevel(model, timer)`, with the random source replaced by
      `pick` (bank draws) and `swap` (the shuffle). It fails exactly when the
      three hard pieces leave fewer than 10 columns; the width check never
      fails; a successful run is described by `GeneratedLevel`. */
  method GetGeneratedLevel(model: LevelModel, banks: Banks, pick: nat -> nat, swap: nat -> nat)
    returns (r: Result<Level>)
    requires model.Valid() && model.height >= PIECE_HEIGHT && banks.Valid()
    ensures r.Failure? <==> model.width < SumWidths(HardDraws(banks, pick)) + MIN_LEFT_AFTER_MID
    ensures r.Failure? ==> r.error == NotEnoughSpace
    ensures r.Success? ==> GeneratedLevel(model, banks, pick, r.value)
    ensures r.Success? ==> r.value.order == Shuffle(r.value.allocation.plan, swap)
  {
    var cleared := ClearMap(model);
    var a :- Allocate(model.width, banks, pick);
    AllocationFullHeight(model.width, banks, pick, a);

    // set a random order of all the selected pieces
    var order := Shuffle(a.plan, swap);
    ShuffleKeepsBudget(a.plan, swap);
    r := Assemble(cleared, a, order);
  }

  /** Away from the two column-0 overrides, a generated level's 16 piece rows
      hold exactly the layout: the stamped pieces, then the exit segment. */
  lemma LevelCell(model: LevelModel, banks: Banks, pick: nat -> nat, lv: Level,
                  x: nat, y: nat)
    requires model.Valid() && banks.Valid()
    requires GeneratedLevel(model, banks, pick, lv)
    requires x < model.width && y < PIECE_HEIGHT <= model.height
    requires x != 0 || (y != 0 && y != model.height / 2)
    ensures lv.model.Cell(x, y) == LevelRow(lv.order, lv.finish, y)[x]
  {
  }

  /** Every generated level ends in its exit: the flag in row 12 and the
      block under it in row 13 sit in the level's second-to-last column, on
      ground in rows 14 and 15 that reaches the last column. */
  lemma ExitAtEnd(model: LevelModel, banks: Banks, pick: nat -> nat, lv: Level)
    requires model.Valid() && model.height >= PIECE_HEIGHT && banks.Valid()
    requires GeneratedLevel(model, banks, pick, lv)
    ensures model.width > MIN_FINISH_WIDTH
    ensures lv.model.Cell(model.width - 2, 12) == EXIT_FLAG
    ensures lv.model.Cell(model.width - 2, 13) == EXIT_BLOCK
    ensures lv.model.Cell(model.width - 1, 14) == GROUND && lv.model.Cell(model.width - 1, 15) == GROUND
  {
    var a := lv.allocation;
    AllocationFullHeight(model.width, banks, pick, a);
    SumWidthsPermutation(lv.order, a.plan);
    assert SumWidths(a.plan) >= 1;
    var off := SumWidths(lv.order);
    var f := lv.finish;
    var w := f.width;
    LevelCell(model, banks, pick, lv, off + w - 2, 12);
    LevelCell(model, banks, pick, lv, off + w - 2, 13);
    LevelCell(model, banks, pick, lv, off + w - 1, 14);
    LevelCell(model, banks, pick, lv, off + w - 1, 15);
    assert f.Tile(w - 2, 12) == EXIT_FLAG && f.Tile(w - 2, 13) == EXIT_BLOCK;
    assert f.Tile(w - 1, 14) == GROUND && f.Tile(w - 1, 15) == GROUND;
  }

  /** Every piece of the stamped order appears, unchanged, at the summed width
      of the pieces before it, except where column 0 is overridden. */
  lemma PiecesAtOffsets(model: LevelModel, banks: Banks, pick: nat -> nat, lv: Level,
                        i: nat, x: nat, y: nat)
    requires model.Valid() && model.height >= PIECE_HEIGHT && banks.Valid()
    requires GeneratedLevel(model, banks, pick, lv)
    requires i < |lv.order| && x < lv.order[i].piece.width && y < PIECE_HEIGHT
    requires SumWidths(lv.order[..i]) + x != 0 || (y != 0 && y != model.height / 2)
    ensures SumWidths(lv.order[..i]) + x < model.width
    ensures lv.model.Cell(SumWidths(lv.order[..i]) + x, y) == lv.order[i].piece.Tile(x, y)
  {
    PieceAtOffset(lv.order, i, x, y);
  }
}
