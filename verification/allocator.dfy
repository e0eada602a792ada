/** The width-budget allocator of `getGeneratedLevel`: three hard and three
    mid pieces, mid pieces trimmed from the tail until at least 10 columns are
    left, easy pieces added until at most 12 are left, and an overshooting
    easy piece taken back. */
module Allocator {
  import opened Tiles
  import opened Results
  import opened Pieces
  import opened Plans

  const HARD_PIECES_COUNT: nat := 3
  const MID_PIECES_COUNT: nat := 3
  /** Columns that must be free once the mid pieces are trimmed. */
  const MIN_LEFT_AFTER_MID: int := 10
  /** Easy pieces are added while more columns than this are free. */
  const MAX_LEFT_FOR_FINISH: int := 12
  /** The narrowest exit segment. */
  const MIN_FINISH_WIDTH: int := 3

  /** What the premade pieces have in common: constructed, 16 rows tall and
      at least one column wide (all of them are 16 wide). */
  ghost predicate BankPiece(p: LevelPiece) {
    p.Valid() && p.height == PIECE_HEIGHT && p.width >= 1
  }

  /** The three banks of premade pieces. */
  datatype Banks = Banks(easy: seq<LevelPiece>, mid: seq<LevelPiece>, hard: seq<LevelPiece>) {
    ghost predicate Valid() {
      && |easy| > 0 && |mid| > 0 && |hard| > 0
      && (forall i :: 0 <= i < |easy| ==> BankPiece(easy[i]))
      && (forall i :: 0 <= i < |mid| ==> BankPiece(mid[i]))
      && (forall i :: 0 <= i < |hard| ==> BankPiece(hard[i]))
    }
  }

  /** `bank.random(rng)` for the `k`-th draw of a run: the random source is
      replaced by `pick`, and the drawn index is `pick(k)` reduced into the
      bank's index range. Draws 0-2 are the hard pieces, 3-5 the mid pieces,
      and 6 onwards the easy pieces. */
  function Draw(bank: seq<LevelPiece>, pick: nat -> nat, k: nat): (d: LevelPiece)
    requires |bank| > 0
    ensures d in bank
  {
    bank[pick(k) % |bank|]
  }

  function HardDraw(banks: Banks, pick: nat -> nat, i: nat): Entry
    requires banks.Valid()
  {
    Entry(Hard, Draw(banks.hard, pick, i))
  }

  function MidDraw(banks: Banks, pick: nat -> nat, i: nat): Entry
    requires banks.Valid()
  {
    Entry(Mid, Draw(banks.mid, pick, HARD_PIECES_COUNT + i))
  }

  function EasyDraw(banks: Banks, pick: nat -> nat, i: nat): Entry
    requires banks.Valid()
  {
    Entry(Easy, Draw(banks.easy, pick, HARD_PIECES_COUNT + MID_PIECES_COUNT + i))
  }

  function EasyWidth(banks: Banks, pick: nat -> nat, i: nat): nat
    requires banks.Valid()
  {
    EasyDraw(banks, pick, i).piece.width
  }

  /** The three hard pieces drawn first. */
  function HardDraws(banks: Banks, pick: nat -> nat): seq<Entry>
    requires banks.Valid()
  {
    seq(HARD_PIECES_COUNT, (i: int) requires 0 <= i => HardDraw(banks, pick, i))
  }

  /** The hard pieces followed by the first `k` mid pieces drawn. */
  function HardMid(banks: Banks, pick: nat -> nat, k: nat): seq<Entry>
    requires banks.Valid() && k <= MID_PIECES_COUNT
  {
    HardDraws(banks, pick) + seq(k, (i: int) requires 0 <= i => MidDraw(banks, pick, i))
  }

  /** The first `m` easy pieces drawn. */
  function EasyDraws(banks: Banks, pick: nat -> nat, m: nat): seq<Entry>
    requires banks.Valid()
  {
    seq(m, (i: int) requires 0 <= i => EasyDraw(banks, pick, i))
  }

  /** The columns free after the hard pieces and `k` mid pieces. */
  function LeftAfterMid(width: int, banks: Banks, pick: nat -> nat, k: nat): int
    requires banks.Valid() && k <= MID_PIECES_COUNT
  {
    width - SumWidths(HardMid(banks, pick, k))
  }

  /** The allocator's state: the piece sequence, the columns it covers and
      the columns still free, and the per-bank counters. */
  datatype Allocation = Allocation(plan: seq<Entry>, totalWidth: int, widthLeft: int,
                                   spawnedHard: int, spawnedMid: int, spawnedEasy: int)

  /** The budget invariant: `totalWidth` is the summed width of the plan and
      it and `widthLeft` together make up the level width. */
  ghost predicate Accounted(width: int, a: Allocation) {
    a.totalWidth == SumWidths(a.plan) && a.widthLeft + a.totalWidth == width
  }

  /** The allocator starts with nothing placed and every column free. */
  function Start(width: int): (a: Allocation)
    ensures Accounted(width, a) && a.plan == []
  {
    Allocation([], 0, width, 0, 0, 0)
  }

  /** `pieceSequence.add(piece)` together with the width and counter updates
      that follow each add. */
  function Push(a: Allocation, e: Entry): (r: Allocation)
    ensures r.plan == a.plan + [e]
    ensures forall w :: Accounted(w, a) ==> Accounted(w, r)
  {
    var w := e.piece.width;
    var r := a.(plan := a.plan + [e], totalWidth := a.totalWidth + w, widthLeft := a.widthLeft - w);
    assert (a.plan + [e])[..|a.plan|] == a.plan;
    match e.cat
    case Hard => r.(spawnedHard := a.spawnedHard + 1)
    case Mid => r.(spawnedMid := a.spawnedMid + 1)
    case Easy => r.(spawnedEasy := a.spawnedEasy + 1)
  }

  /** One iteration of a trim loop: the tail entry is removed
      unconditionally, and its width is refunded (and the counter of
      `cat` lowered) only if the entry is of the category being trimmed. */
  function PopTail(a: Allocation, cat: Category): (r: Allocation)
    requires |a.plan| > 0
    ensures r.plan == a.plan[..|a.plan| - 1]
  {
    var last := a.plan[|a.plan| - 1];
    var popped := a.(plan := a.plan[..|a.plan| - 1]);
    if last.cat != cat then popped
    else
      var w := last.piece.width;
      var refunded := popped.(widthLeft := a.widthLeft + w, totalWidth := a.totalWidth - w);
      match cat
      case Hard => refunded.(spawnedHard := a.spawnedHard - 1)
      case Mid => refunded.(spawnedMid := a.spawnedMid - 1)
      case Easy => refunded.(spawnedEasy := a.spawnedEasy - 1)
  }

  /** Popping keeps the budget invariant exactly when the popped entry is
      of the trimmed category (or takes no columns): popping any other
      piece would make the accounting drift. */
  lemma PopTailAccounted(width: int, a: Allocation, cat: Category)
    requires Accounted(width, a) && |a.plan| > 0
    ensures Accounted(width, PopTail(a, cat)) <==>
            (a.plan[|a.plan| - 1].cat == cat || a.plan[|a.plan| - 1].piece.width == 0)
  {
  }

  /** In the mid-trim loop the plan is the hard pieces followed by the
      remaining mid pieces, so the popped tail is always a mid piece, its
      width is refunded, and the plan keeps its shape. */
  lemma MidTrimPopsMid(width: int, banks: Banks, pick: nat -> nat, a: Allocation)
    requires banks.Valid() && Accounted(width, a)
    requires 0 < a.spawnedMid <= MID_PIECES_COUNT && a.plan == HardMid(banks, pick, a.spawnedMid)
    ensures a.plan[|a.plan| - 1].cat == Mid
    ensures var r := PopTail(a, Mid);
            && Accounted(width, r)
            && r.spawnedMid == a.spawnedMid - 1
            && r.plan == HardMid(banks, pick, r.spawnedMid)
  {
    var k := a.spawnedMid;
    assert a.plan[|a.plan| - 1] == MidDraw(banks, pick, k - 1);
    assert a.plan[..|a.plan| - 1] == HardMid(banks, pick, k - 1);
  }

  /** In the easy-trim loop the plan ends in the easy pieces, so when one
      is there the popped tail is an easy piece, its width is refunded, and
      the plan keeps its shape. */
  lemma EasyTrimPopsEasy(width: int, banks: Banks, pick: nat -> nat, a: Allocation, k: nat)
    requires banks.Valid() && Accounted(width, a) && k <= MID_PIECES_COUNT
    requires 0 < a.spawnedEasy && a.plan == HardMid(banks, pick, k) + EasyDraws(banks, pick, a.spawnedEasy)
    ensures a.plan[|a.plan| - 1].cat == Easy
    ensures var r := PopTail(a, Easy);
            && Accounted(width, r)
            && r.spawnedEasy == a.spawnedEasy - 1
            && r.plan == HardMid(banks, pick, k) + EasyDraws(banks, pick, r.spawnedEasy)
            && r.widthLeft == a.widthLeft + EasyWidth(banks, pick, r.spawnedEasy)
  {
    var m := a.spawnedEasy;
    assert a.plan[|a.plan| - 1] == EasyDraw(banks, pick, m - 1);
    assert EasyDraws(banks, pick, m)[..m - 1] == EasyDraws(banks, pick, m - 1);
    assert a.plan[..|a.plan| - 1] == HardMid(banks, pick, k) + EasyDraws(banks, pick, m - 1);
  }

  /** In the easy-fill loop, appending the next easy piece drawn extends the
      plan's run of easy pieces by one and takes its width from the free
      columns. */
  lemma EasyFillPushesEasy(width: int, banks: Banks, pick: nat -> nat, a: Allocation, k: nat)
    requires banks.Valid() && Accounted(width, a) && k <= MID_PIECES_COUNT && 0 <= a.spawnedEasy
    requires a.plan == HardMid(banks, pick, k) + EasyDraws(banks, pick, a.spawnedEasy)
    ensures var r := Push(a, EasyDraw(banks, pick, a.spawnedEasy));
            && Accounted(width, r)
            && r.spawnedEasy == a.spawnedEasy + 1
            && r.spawnedHard == a.spawnedHard && r.spawnedMid == a.spawnedMid
            && r.plan == HardMid(banks, pick, k) + EasyDraws(banks, pick, r.spawnedEasy)
            && r.widthLeft == a.widthLeft - EasyWidth(banks, pick, a.spawnedEasy)
  {
    var m := a.spawnedEasy;
    assert EasyDraws(banks, pick, m + 1) == EasyDraws(banks, pick, m) + [EasyDraw(banks, pick, m)];
  }

  /** The mid-trim loop stopped where it should: at least 10 columns are
      free with `k` mid pieces, and keeping one more would leave fewer. */
  ghost predicate MidTrimmed(width: int, banks: Banks, pick: nat -> nat, k: nat)
    requires banks.Valid() && k <= MID_PIECES_COUNT
  {
    && LeftAfterMid(width, banks, pick, k) >= MIN_LEFT_AFTER_MID
    && (k == MID_PIECES_COUNT || LeftAfterMid(width, banks, pick, k + 1) < MIN_LEFT_AFTER_MID)
  }

  /** The easy-fill and easy-trim loops stopped where they should, with `m`
      easy pieces kept and `left` columns free. Either no piece was taken
      back: between 3 and 12 columns are free, and before the last easy
      piece more than 12 were. Or the last piece drawn overshot: it was
      taken back, more than 12 columns are free, and with it fewer than 3
      would be. */
  ghost predicate EasyFilled(banks: Banks, pick: nat -> nat, m: nat, left: int)
    requires banks.Valid()
  {
    || (&& MIN_FINISH_WIDTH <= left <= MAX_LEFT_FOR_FINISH
        && (m == 0 || left + EasyWidth(banks, pick, m - 1) > MAX_LEFT_FOR_FINISH))
    || (left > MAX_LEFT_FOR_FINISH && left - EasyWidth(banks, pick, m) < MIN_FINISH_WIDTH)
  }

  /** What a successful allocation is, independently of the loops that
      compute it: the three hard pieces, then the mid pieces the trim kept,
      then the easy pieces the fill and trim kept, with the budget invariant
      and the counters matching the plan. */
  ghost predicate AllocationOf(width: int, banks: Banks, pick: nat -> nat, a: Allocation)
    requires banks.Valid()
  {
    && Accounted(width, a)
    && a.spawnedHard == HARD_PIECES_COUNT
    && 0 <= a.spawnedMid <= MID_PIECES_COUNT
    && 0 <= a.spawnedEasy
    && a.plan == HardMid(banks, pick, a.spawnedMid) + EasyDraws(banks, pick, a.spawnedEasy)
    && MidTrimmed(width, banks, pick, a.spawnedMid)
    && EasyFilled(banks, pick, a.spawnedEasy, a.widthLeft)
  }

  /** Every entry of an allocated plan is a 16-row piece from a bank. */
  lemma AllocationFullHeight(width: int, banks: Banks, pick: nat -> nat, a: Allocation)
    requires banks.Valid() && AllocationOf(width, banks, pick, a)
    ensures AllFullHeight(a.plan)
    ensures forall i :: 0 <= i < |a.plan| ==> a.plan[i].piece.width >= 1
  {
    var hm := HardMid(banks, pick, a.spawnedMid);
    var es := EasyDraws(banks, pick, a.spawnedEasy);
    forall i | 0 <= i < |a.plan|
      ensures BankPiece(a.plan[i].piece)
    {
      if i < |hm| {
        assert a.plan[i] == hm[i];
        if i >= HARD_PIECES_COUNT {
          assert hm[i] == MidDraw(banks, pick, i - HARD_PIECES_COUNT);
        }
      } else {
        assert a.plan[i] == es[i - |hm|];
      }
    }
  }

  /** The two `repeat` blocks: three hard pieces, then three mid pieces,
      each appended with its width added to `totalWidth`. */
  method DrawPieces(width: int, banks: Banks, pick: nat -> nat) returns (a: Allocation)
    requires banks.Valid()
    ensures Accounted(width, a)
    ensures a.plan == HardMid(banks, pick, MID_PIECES_COUNT)
    ensures a.spawnedHard == HARD_PIECES_COUNT && a.spawnedMid == MID_PIECES_COUNT && a.spawnedEasy == 0
  {
    a := Start(width);
    var draws: nat := 0;
    while draws < HARD_PIECES_COUNT
      invariant draws <= HARD_PIECES_COUNT
      invariant Accounted(width, a)
      invariant a.plan == HardDraws(banks, pick)[..draws]
      invariant a.spawnedHard == draws && a.spawnedMid == 0 && a.spawnedEasy == 0
    {
      var piece := Draw(banks.hard, pick, draws);
      a := Push(a, Entry(Hard, piece));
      draws := draws + 1;
    }
    assert HardDraws(banks, pick)[..HARD_PIECES_COUNT] == HardMid(banks, pick, 0);
    while draws < HARD_PIECES_COUNT + MID_PIECES_COUNT
      invariant HARD_PIECES_COUNT <= draws <= HARD_PIECES_COUNT + MID_PIECES_COUNT
      invariant Accounted(width, a)
      invariant a.spawnedHard == HARD_PIECES_COUNT && a.spawnedEasy == 0
      invariant a.spawnedMid == draws - HARD_PIECES_COUNT
      invariant a.plan == HardMid(banks, pick, a.spawnedMid)
    {
      var piece := Draw(banks.mid, pick, draws);
      assert HardMid(banks, pick, a.spawnedMid + 1) == a.plan + [Entry(Mid, piece)];
      a := Push(a, Entry(Mid, piece));
      draws := draws + 1;
    }
  }

  /** The mid-trim loop: while fewer than 10 columns are free and the plan
      holds more than the hard pieces, pop the tail. The hard pieces stay,
      and the loop stops at the first mid count (counting down) that leaves
      10 columns, or at none. */
  method TrimMid(width: int, banks: Banks, pick: nat -> nat, a0: Allocation) returns (a: Allocation)
    requires banks.Valid() && Accounted(width, a0)
    requires a0.plan == HardMid(banks, pick, MID_PIECES_COUNT)
    requires a0.spawnedHard == HARD_PIECES_COUNT && a0.spawnedMid == MID_PIECES_COUNT && a0.spawnedEasy == 0
    ensures Accounted(width, a)
    ensures a.spawnedHard == HARD_PIECES_COUNT && a.spawnedEasy == 0
    ensures 0 <= a.spawnedMid <= MID_PIECES_COUNT
    ensures a.plan == HardMid(banks, pick, a.spawnedMid)
    ensures a.widthLeft >= MIN_LEFT_AFTER_MID ==> MidTrimmed(width, banks, pick, a.spawnedMid)
    ensures a.widthLeft < MIN_LEFT_AFTER_MID ==> a.spawnedMid == 0
  {
    a := a0;
    while a.widthLeft < MIN_LEFT_AFTER_MID && |a.plan| > HARD_PIECES_COUNT
      invariant Accounted(width, a)
      invariant a.spawnedHard == HARD_PIECES_COUNT && a.spawnedEasy == 0
      invariant 0 <= a.spawnedMid <= MID_PIECES_COUNT
      invariant a.plan == HardMid(banks, pick, a.spawnedMid)
      invariant a.spawnedMid < MID_PIECES_COUNT ==>
                  LeftAfterMid(width, banks, pick, a.spawnedMid + 1) < MIN_LEFT_AFTER_MID
      decreases |a.plan|
    {
      MidTrimPopsMid(width, banks, pick, a);
      a := PopTail(a, Mid);
    }
  }

  /** The easy-fill loop: while more than 12 columns are free, append the
      next easy piece drawn. Ends with at most 12 columns free, and with more
      than 12 free before the last easy piece. */
  method FillEasy(width: int, banks: Banks, pick: nat -> nat, a0: Allocation, k: nat) returns (a: Allocation)
    requires banks.Valid() && Accounted(width, a0) && k <= MID_PIECES_COUNT
    requires a0.plan == HardMid(banks, pick, k)
    requires a0.spawnedHard == HARD_PIECES_COUNT && a0.spawnedMid == k && a0.spawnedEasy == 0
    requires a0.widthLeft >= MIN_LEFT_AFTER_MID
    ensures Accounted(width, a)
    ensures a.spawnedHard == HARD_PIECES_COUNT && a.spawnedMid == k && 0 <= a.spawnedEasy
    ensures a.plan == HardMid(banks, pick, k) + EasyDraws(banks, pick, a.spawnedEasy)
    ensures a.widthLeft <= MAX_LEFT_FOR_FINISH
    ensures a.spawnedEasy == 0 ==> a.widthLeft >= MIN_LEFT_AFTER_MID
    ensures a.spawnedEasy > 0 ==>
              a.widthLeft + EasyWidth(banks, pick, a.spawnedEasy - 1) > MAX_LEFT_FOR_FINISH
  {
    a := a0;
    var draws: nat := HARD_PIECES_COUNT + MID_PIECES_COUNT;
    assert a.plan == HardMid(banks, pick, k) + EasyDraws(banks, pick, 0);
    while a.widthLeft > MAX_LEFT_FOR_FINISH
      invariant Accounted(width, a)
      invariant a.spawnedHard == HARD_PIECES_COUNT && a.spawnedMid == k && 0 <= a.spawnedEasy
      invariant draws == HARD_PIECES_COUNT + MID_PIECES_COUNT + a.spawnedEasy
      invariant a.plan == HardMid(banks, pick, k) + EasyDraws(banks, pick, a.spawnedEasy)
      invariant a.spawnedEasy == 0 ==> a.widthLeft >= MIN_LEFT_AFTER_MID
      invariant a.spawnedEasy > 0 ==>
                  a.widthLeft + EasyWidth(banks, pick, a.spawnedEasy - 1) > MAX_LEFT_FOR_FINISH
      decreases a.widthLeft
    {
      var piece := Draw(banks.easy, pick, draws);
      assert Entry(Easy, piece) == EasyDraw(banks, pick, a.spawnedEasy);
      assert BankPiece(piece);
      EasyFillPushesEasy(width, banks, pick, a, k);
      a := Push(a, Entry(Easy, piece));
      draws := draws + 1;
    }
  }

  /** The easy-trim loop: while fewer than 3 columns are free and the plan
      holds more than the hard pieces, pop the tail. Only the one easy piece
      that overshot is ever taken back, and at least 3 columns end up free. */
  method TrimEasy(width: int, banks: Banks, pick: nat -> nat, a0: Allocation, k: nat) returns (a: Allocation)
    requires banks.Valid() && Accounted(width, a0) && k <= MID_PIECES_COUNT
    requires a0.spawnedHard == HARD_PIECES_COUNT && a0.spawnedMid == k && 0 <= a0.spawnedEasy
    requires a0.plan == HardMid(banks, pick, k) + EasyDraws(banks, pick, a0.spawnedEasy)
    requires a0.widthLeft <= MAX_LEFT_FOR_FINISH
    requires a0.spawnedEasy == 0 ==> a0.widthLeft >= MIN_LEFT_AFTER_MID
    requires a0.spawnedEasy > 0 ==>
               a0.widthLeft + EasyWidth(banks, pick, a0.spawnedEasy - 1) > MAX_LEFT_FOR_FINISH
    ensures Accounted(width, a)
    ensures a.spawnedHard == HARD_PIECES_COUNT && a.spawnedMid == k && 0 <= a.spawnedEasy
    ensures a.plan == HardMid(banks, pick, k) + EasyDraws(banks, pick, a.spawnedEasy)
    ensures a.widthLeft >= MIN_FINISH_WIDTH
    ensures a.spawnedEasy >= a0.spawnedEasy - 1
    ensures EasyFilled(banks, pick, a.spawnedEasy, a.widthLeft)
  {
    a := a0;
    while a.widthLeft < MIN_FINISH_WIDTH && |a.plan| > HARD_PIECES_COUNT
      invariant Accounted(width, a)
      invariant a.spawnedHard == HARD_PIECES_COUNT && a.spawnedMid == k && 0 <= a.spawnedEasy
      invariant a.plan == HardMid(banks, pick, k) + EasyDraws(banks, pick, a.spawnedEasy)
      invariant a.spawnedEasy == 0 ==> a.widthLeft >= MIN_LEFT_AFTER_MID
      invariant a.spawnedEasy >= a0.spawnedEasy - 1
      invariant || (&& a.widthLeft <= MAX_LEFT_FOR_FINISH
                    && a.spawnedEasy == a0.spawnedEasy
                    && (a.spawnedEasy > 0 ==>
                          a.widthLeft + EasyWidth(banks, pick, a.spawnedEasy - 1) > MAX_LEFT_FOR_FINISH))
                || (&& a.widthLeft > MAX_LEFT_FOR_FINISH
                    && a.widthLeft - EasyWidth(banks, pick, a.spawnedEasy) < MIN_FINISH_WIDTH)
      decreases |a.plan|
    {
      EasyTrimPopsEasy(width, banks, pick, a, k);
      a := PopTail(a, Easy);
    }
  }

  /** The allocation part of `getGeneratedLevel` for a level `width`
      columns wide. It fails exactly when the three hard pieces leave fewer
      than 10 columns; otherwise it returns the allocation described by
      `AllocationOf`, which leaves at least 3 columns for the exit segment. */
  method Allocate(width: int, banks: Banks, pick: nat -> nat) returns (r: Result<Allocation>)
    requires banks.Valid()
    ensures r.Failure? <==> width < SumWidths(HardDraws(banks, pick)) + MIN_LEFT_AFTER_MID
    ensures r.Failure? ==> r.error == NotEnoughSpace
    ensures r.Success? ==> AllocationOf(width, banks, pick, r.value)
    ensures r.Success? ==> MIN_FINISH_WIDTH <= r.value.widthLeft
  {
    var a := DrawPieces(width, banks, pick);
    a := TrimMid(width, banks, pick, a);
    var k: nat := a.spawnedMid;
    assert HardMid(banks, pick, k)[..HARD_PIECES_COUNT] == HardDraws(banks, pick);
    SumWidthsPrefix(HardMid(banks, pick, k), HARD_PIECES_COUNT);
    if a.widthLeft < MIN_LEFT_AFTER_MID {
      assert HardMid(banks, pick, k) == HardDraws(banks, pick);
      return Failure(NotEnoughSpace);
    }
    a := FillEasy(width, banks, pick, a, k);
    a := TrimEasy(width, banks, pick, a, k);
    return Success(a);
  }

  /** Every piece in every bank is `w` columns wide. */
  ghost predicate BanksOfWidth(banks: Banks, w: nat) {
    && (forall i :: 0 <= i < |banks.easy| ==> banks.easy[i].width == w)
    && (forall i :: 0 <= i < |banks.mid| ==> banks.mid[i].width == w)
    && (forall i :: 0 <= i < |banks.hard| ==> banks.hard[i].width == w)
  }

  /** A plan of `w`-wide pieces is `w` columns per piece. */
  lemma {:induction false} UniformSumWidths(plan: seq<Entry>, w: nat)
    requires forall i :: 0 <= i < |plan| ==> plan[i].piece.width == w
    ensures SumWidths(plan) == w * |plan|
    decreases |plan|
  {
    if |plan| > 0 {
      UniformSumWidths(plan[..|plan| - 1], w);
    }
  }

  /** The configuration the game runs: a 150-column level and banks of
      16-column pieces. The allocation always succeeds, whatever is drawn,
      and always keeps all three mid pieces, adds three easy pieces
      (54, 38, 22 and then 6 columns free) and leaves 6 columns for the exit
      segment. */
  lemma Example150(banks: Banks, pick: nat -> nat, a: Allocation)
    requires banks.Valid() && BanksOfWidth(banks, 16)
    ensures 150 >= SumWidths(HardDraws(banks, pick)) + MIN_LEFT_AFTER_MID
    ensures AllocationOf(150, banks, pick, a) ==>
              && a.spawnedMid == 3 && a.spawnedEasy == 3
              && |a.plan| == 9 && a.totalWidth == 144 && a.widthLeft == 6
  {
    forall k: nat | k <= MID_PIECES_COUNT
      ensures LeftAfterMid(150, banks, pick, k) == 150 - 16 * (3 + k)
    {
      UniformSumWidths(HardMid(banks, pick, k), 16);
    }
    assert HardMid(banks, pick, 0) == HardDraws(banks, pick);
    assert LeftAfterMid(150, banks, pick, 0) == 102;
    if AllocationOf(150, banks, pick, a) {
      var k := a.spawnedMid;
      var m := a.spawnedEasy;
      assert k == 3;
      UniformSumWidths(a.plan, 16);
      assert |a.plan| == 3 + k + m;
      assert a.widthLeft == 54 - 16 * m;
      assert EasyWidth(banks, pick, m) == 16;
      if m > 0 {
        assert EasyWidth(banks, pick, m - 1) == 16;
      }
    }
  }
}
