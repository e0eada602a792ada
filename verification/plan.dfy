/** The piece sequence the generator builds: entries tagged with the bank they
    were drawn from, their summed width, the row a sequence of pieces forms
    when laid side by side, and the shuffle. */
module Plans {
  import opened Tiles
  import opened Pieces

  /** Which bank an entry was drawn from. The generator's `in midPieces` and
      `in easyPieces` tests compare object identity, and the three banks hold
      distinct objects, so the test amounts to comparing this tag. */
  datatype Category = Hard | Mid | Easy

  datatype Entry = Entry(cat: Category, piece: LevelPiece)

  /** Every entry holds a constructed, 16-row piece. */
  ghost predicate AllFullHeight(plan: seq<Entry>) {
    forall i :: 0 <= i < |plan| ==> plan[i].piece.Valid() && plan[i].piece.height == PIECE_HEIGHT
  }

  /** The summed width of the pieces of a plan. */
  function SumWidths(plan: seq<Entry>): nat
  {
    if |plan| == 0 then 0 else SumWidths(plan[..|plan| - 1]) + plan[|plan| - 1].piece.width
  }

  /** Summing widths distributes over concatenation. */
  lemma {:induction false} SumWidthsAppend(a: seq<Entry>, b: seq<Entry>)
    ensures SumWidths(a + b) == SumWidths(a) + SumWidths(b)
    decreases |b|
  {
    if |b| == 0 {
      assert a + b == a;
    } else {
      var b' := b[..|b| - 1];
      assert (a + b)[..|a + b| - 1] == a + b';
      SumWidthsAppend(a, b');
    }
  }

  /** A prefix is never wider than the whole plan. */
  lemma SumWidthsPrefix(plan: seq<Entry>, k: nat)
    requires k <= |plan|
    ensures SumWidths(plan[..k]) <= SumWidths(plan)
  {
    assert plan == plan[..k] + plan[k..];
    SumWidthsAppend(plan[..k], plan[k..]);
  }

  /** The summed width depends only on which entries a plan holds, not on
      their order: what makes the shuffle harmless to the width budget. */
  lemma {:induction false} SumWidthsPermutation(a: seq<Entry>, b: seq<Entry>)
    requires multiset(a) == multiset(b)
    ensures SumWidths(a) == SumWidths(b)
    decreases |a|
  {
    if |a| == 0 {
      assert |b| == |multiset(b)| == 0;
    } else {
      var last := a[|a| - 1];
      var a' := a[..|a| - 1];
      assert a == a' + [last];
      assert last in multiset(b);
      var k :| 0 <= k < |b| && b[k] == last;
      var b' := b[..k] + b[k + 1..];
      assert b == b[..k] + [last] + b[k + 1..];
      assert multiset(b') == multiset(b) - multiset{last};
      assert multiset(a') == multiset(a) - multiset{last};
      SumWidthsPermutation(a', b');
      SumWidthsAppend(b[..k] + [last], b[k + 1..]);
      SumWidthsAppend(b[..k], [last]);
      SumWidthsAppend(b[..k], b[k + 1..]);
      assert [last][..0] == [];
    }
  }

  /** Row `y` of the level that a plan forms when its pieces are laid side by
      side from column 0, each starting where the previous one ends. */
  function ConcatRow(plan: seq<Entry>, y: nat): (row: string)
    requires AllFullHeight(plan) && y < PIECE_HEIGHT
    ensures |row| == SumWidths(plan)
  {
    if |plan| == 0 then []
    else ConcatRow(plan[..|plan| - 1], y) + plan[|plan| - 1].piece.rows[y]
  }

  /** Piece `i` occupies the columns starting at the summed width of the
      pieces before it: its tile `(x, y)` is column `SumWidths(plan[..i]) + x`
      of row `y`. */
  lemma {:induction false} PieceAtOffset(plan: seq<Entry>, i: nat, x: nat, y: nat)
    requires AllFullHeight(plan) && y < PIECE_HEIGHT
    requires i < |plan| && x < plan[i].piece.width
    ensures && SumWidths(plan[..i]) + x < SumWidths(plan)
            && ConcatRow(plan, y)[SumWidths(plan[..i]) + x] == plan[i].piece.Tile(x, y)
    decreases |plan|
  {
    var n := |plan| - 1;
    var init := plan[..n];
    assert AllFullHeight(init);
    if i == n {
      assert plan[..i] == init;
    } else {
      assert init[..i] == plan[..i];
      PieceAtOffset(init, i, x, y);
    }
  }

  /** Exchanges the entries at `i` and `j`. */
  function Swap(s: seq<Entry>, i: nat, j: nat): (r: seq<Entry>)
    requires i < |s| && j < |s|
    ensures |r| == |s| && multiset(r) == multiset(s)
    ensures r[i] == s[j] && r[j] == s[i]
    ensures forall k :: 0 <= k < |s| && k != i && k != j ==> r[k] == s[k]
  {
    s[i := s[j]][j := s[i]]
  }

  /** `shuffle(rng)` as Kotlin's `MutableList.shuffle` performs it: for
      `i` from the last index down to 1, swap position `i` with a position
      `j` in `[0, i]`. The generator's random source is replaced by `swap`:
      the `j` used for index `i` is `swap(i) % (i + 1)`. Shuffles the first
      `n` positions. That it permutes them is `ShuffleFirstPermutes`, kept
      apart so the recursion carries no multiset facts the solver would
      unfold. */
  function ShuffleFirst(s: seq<Entry>, swap: nat -> nat, n: nat): (r: seq<Entry>)
    requires n <= |s|
    ensures |r| == |s|
    decreases n
  {
    if n <= 1 then s
    else
      var i, j := n - 1, swap(n - 1) % n;
      ShuffleFirst(s[i := s[j]][j := s[i]], swap, n - 1)
  }

  /** The pass over the first `n` positions permutes the plan and leaves
      the positions from `n` on alone. */
  lemma {:induction false} ShuffleFirstPermutes(s: seq<Entry>, swap: nat -> nat, n: nat)
    requires n <= |s|
    ensures multiset(ShuffleFirst(s, swap, n)) == multiset(s)
    ensures forall k :: n <= k < |s| ==> ShuffleFirst(s, swap, n)[k] == s[k]
    decreases n
  {
    if n > 1 {
      var t := Swap(s, n - 1, swap(n - 1) % n);
      assert ShuffleFirst(s, swap, n) == ShuffleFirst(t, swap, n - 1);
      ShuffleFirstPermutes(t, swap, n - 1);
    }
  }

  /** The whole-list shuffle. */
  function Shuffle(s: seq<Entry>, swap: nat -> nat): (r: seq<Entry>)
    ensures |r| == |s| && multiset(r) == multiset(s)
  {
    ShuffleFirstPermutes(s, swap, |s|);
    ShuffleFirst(s, swap, |s|)
  }

  /** Shuffling keeps every entry's kind of piece and the summed width. */
  lemma ShuffleKeepsBudget(s: seq<Entry>, swap: nat -> nat)
    requires AllFullHeight(s)
    ensures AllFullHeight(Shuffle(s, swap))
    ensures SumWidths(Shuffle(s, swap)) == SumWidths(s)
  {
    var r := Shuffle(s, swap);
    forall i | 0 <= i < |r|
      ensures r[i].piece.Valid() && r[i].piece.height == PIECE_HEIGHT
    {
      assert r[i] in multiset(s);
    }
    SumWidthsPermutation(r, s);
  }
}
