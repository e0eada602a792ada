# Vladav level generator, modelled in Dafny

This project models the level assembler of a procedural Mario level generator
(`VladavLevelGenerator`). The generator builds a level of a fixed width from
16x16 premade pieces drawn from three banks: easy, mid and hard. The steps are:

1. Draw three hard and three mid pieces.
2. Drop mid pieces from the tail until at least 10 columns are free.
3. Add easy pieces until at most 12 columns are free.
4. Take back an easy piece that overshot, leaving at least 3 columns free.
5. Shuffle the pieces and stamp them side by side into the level model.
6. Fill the columns that are left with an exit segment.
7. Check that the widths add up.
8. Put the start marker and a ground block in column 0.

Modules, leaf first:

- `Results`: the failure values. Each Kotlin `require` becomes a `Failure` that names the check that failed.
- `Tiles`: the tile characters the generator writes.
- `LevelModels`: the level model as a column-major `seq<seq<char>>`, with `clearMap` and `setBlock`.
- `Pieces`: `LevelPiece` and its validating constructor, `placeInModel`, and `generateFinisPiece`.
- `Plans`: plan entries tagged with their bank, summed widths, the row that pieces laid side by side form, and the shuffle.
- `Allocator`: the width-budget loops, each as a method with loop invariants. `AllocationOf` is an independent statement of which plan they must produce.
- `Generator`: stamping, the column-0 overrides and the whole `getGeneratedLevel`. `GeneratedLevel` gives the expected tile of every cell.

How randomness is handled:

- Bank draws come from a stream `pick: nat -> nat`. The `k`-th draw takes index `pick(k) % |bank|`. Draws 0-2 are hard, 3-5 are mid, and 6 onwards are easy.
- The shuffle follows Kotlin's `MutableList.shuffle`. For each index `i` from the last one down to 1, it swaps `i` with `swap(i) % (i + 1)`.

### Notes on the code

The model follows what the Kotlin code does in these places, where a reader might expect something else:

- Both trim loops (`VladavLevelGenerator.kt:262-271` and `:287-296`) remove the tail entry every time round. They refund its width and decrement the counter only when the entry comes from the bank being trimmed. `PopTail` keeps that shape. `MidTrimPopsMid` and `EasyTrimPopsEasy` prove that the tail is always from the bank being trimmed, so the refund is never skipped.
- `"-F-"` and `"-#-"` (`:215-216`) put the exit flag and the block under it in column `w-2` of the exit segment, one column before its last. Row 13 is EMPTY apart from the block.
- The ground override is `setBlock(0, 0, GROUND)` (`:320`). Row 0 is the top row of the layout.
- The easy-fill loop (`:277`) runs while more than 12 columns are free. The comment above it (`:276`) says 22.

## Model

| member | source | states |
|---|---|---|
| `Pieces.AllHaveLength` | src/main/kotlin/VladavLevelGenerator.kt:19 | true exactly when every row has the given length |
| `Pieces.MakePiece` | src/main/kotlin/VladavLevelGenerator.kt:12-21 | a piece is built exactly when there is at least one row and all rows have row 0's length; otherwise it fails with NoRows or RaggedRows; the built piece keeps the rows, its height is the row count and its width the length of row 0 |
| `Pieces.MakePieceRoundTrip` | src/main/kotlin/VladavLevelGenerator.kt:12-21 | rebuilding a valid piece from its own rows returns that same piece |
| `Pieces.PlaceInModel` | src/main/kotlin/VladavLevelGenerator.kt:23-32 | each non-EMPTY tile `(x, y)` of the piece ends up in cell `(startX + x, y)`; cells under EMPTY tiles and every cell outside the piece's footprint keep their value; the model keeps its size |
| `Pieces.Repeat` | src/main/kotlin/VladavLevelGenerator.kt:213-216 | `c.repeat(n)` is `n` copies of `c` |
| `Pieces.GenerateFinisPiece` | src/main/kotlin/VladavLevelGenerator.kt:210-227 | fails with EndTooSmall exactly when the width is below 3; otherwise a valid piece of that width and 16 rows, with rows 14-15 ground, row 13 EMPTY except the block in column `w-2`, row 12 EMPTY except the flag in column `w-2`, and rows 0-11 EMPTY |
| `LevelModels.ClearMap` | src/main/kotlin/VladavLevelGenerator.kt:232 | every cell becomes EMPTY and the size is kept |
| `LevelModels.SetBlock` | src/main/kotlin/VladavLevelGenerator.kt:28 | the named in-bounds cell gets the tile and every other cell is unchanged |
| `Plans.SumWidthsAppend` | src/main/kotlin/VladavLevelGenerator.kt:246-255 | the summed width of two plans put together is the sum of their summed widths |
| `Plans.SumWidthsPrefix` | src/main/kotlin/VladavLevelGenerator.kt:302-306 | a prefix of a plan is never wider than the plan |
| `Plans.SumWidthsPermutation` | src/main/kotlin/VladavLevelGenerator.kt:299-309 | two plans holding the same entries in any order have the same summed width, so the width computed before the shuffle still holds after it |
| `Plans.ConcatRow` | src/main/kotlin/VladavLevelGenerator.kt:302-306 | a row of pieces laid side by side is as long as their summed width |
| `Plans.PieceAtOffset` | src/main/kotlin/VladavLevelGenerator.kt:302-306 | tile `(x, y)` of piece `i` is column `SumWidths(plan[..i]) + x` of the side-by-side row `y`, so each piece starts at the summed width of those before it |
| `Plans.Swap` | src/main/kotlin/VladavLevelGenerator.kt:299 | exchanging two entries swaps exactly those two positions and keeps the multiset of entries |
| `Plans.ShuffleFirst` | src/main/kotlin/VladavLevelGenerator.kt:299 | the Fisher-Yates pass of `shuffle(rng)` over the first `n` positions keeps the plan's length; the positions it exchanges (`i` with `swap(i) % (i + 1)`, for `i` from `n - 1` down to 1) are its definition, and `ShuffleFirstPermutes` proves what the pass preserves |
| `Plans.ShuffleFirstPermutes` | src/main/kotlin/VladavLevelGenerator.kt:299 | the Fisher-Yates pass over the first `n` positions permutes the plan and leaves the positions from `n` on alone |
| `Plans.Shuffle` | src/main/kotlin/VladavLevelGenerator.kt:299 | the shuffled plan is a permutation of the plan |
| `Plans.ShuffleKeepsBudget` | src/main/kotlin/VladavLevelGenerator.kt:299-309 | shuffling keeps every entry a 16-row piece and keeps the summed width |
| `Allocator.Draw` | src/main/kotlin/VladavLevelGenerator.kt:243 | `bank.random(rng)` (also at `:252` and `:278`) always returns a piece of the bank it draws from; which piece is the definition: the index `pick(k)` reduced modulo the bank's size |
| `Allocator.Start` | src/main/kotlin/VladavLevelGenerator.kt:234-235 | the allocator starts with an empty plan and the budget invariant holding |
| `Allocator.Push` | src/main/kotlin/VladavLevelGenerator.kt:244-246 | appending an entry adds it at the tail and keeps the budget invariant |
| `Allocator.PopTail` | src/main/kotlin/VladavLevelGenerator.kt:263-270 | a trim step always removes the tail entry |
| `Allocator.PopTailAccounted` | src/main/kotlin/VladavLevelGenerator.kt:263-270 | after a pop, the budget invariant holds exactly when the popped entry is of the trimmed category (or zero-wide), so popping any other piece would make the accounting drift |
| `Allocator.MidTrimPopsMid` | src/main/kotlin/VladavLevelGenerator.kt:262-271 | in the mid-trim loop the popped tail is always a mid piece, its width is refunded, the hard pieces stay, and the plan keeps its shape |
| `Allocator.EasyFillPushesEasy` | src/main/kotlin/VladavLevelGenerator.kt:277-285 | adding the next easy piece drawn extends the run of easy pieces by one and takes its width from the free columns |
| `Allocator.EasyTrimPopsEasy` | src/main/kotlin/VladavLevelGenerator.kt:287-296 | in the easy-trim loop the popped tail is always an easy piece, its width is refunded, and the plan keeps its shape |
| `Allocator.AllocationFullHeight` | src/main/kotlin/VladavLevelGenerator.kt:241-296 | every entry of an allocated plan is a valid 16-row bank piece at least one column wide |
| `Allocator.DrawPieces` | src/main/kotlin/VladavLevelGenerator.kt:241-258 | the plan is the three hard draws followed by the three mid draws, and `totalWidth` is their summed width |
| `Allocator.TrimMid` | src/main/kotlin/VladavLevelGenerator.kt:260-271 | only mid pieces are removed; if at least 10 columns end up free, the kept mid count is the largest one that leaves 10 free; otherwise no mid piece is left |
| `Allocator.FillEasy` | src/main/kotlin/VladavLevelGenerator.kt:277-285 | the loop ends with at most 12 columns free, more than 12 free before the last easy piece, and the budget invariant holding |
| `Allocator.TrimEasy` | src/main/kotlin/VladavLevelGenerator.kt:287-296 | at most the one easy piece that overshot is taken back, and at least 3 columns end up free, as the exit segment needs |
| `Allocator.Allocate` | src/main/kotlin/VladavLevelGenerator.kt:241-296 | fails with NotEnoughSpace exactly when the three hard pieces leave fewer than 10 columns; otherwise it returns the allocation that `AllocationOf` describes, with the width invariant holding and at least 3 columns free |
| `Allocator.Example150` | src/main/kotlin/RunGame.kt:12-13 | for a 150-column level and 16-column pieces, allocation always succeeds, keeps all three mid pieces, adds three easy pieces and leaves 6 columns for the exit segment |
| `Generator.StampedOneMore` | src/main/kotlin/VladavLevelGenerator.kt:303-306 | placing the next piece at the running offset extends the laid-out piece rows by exactly that piece and leaves the cells beyond it EMPTY |
| `Generator.StampPieces` | src/main/kotlin/VladavLevelGenerator.kt:301-306 | on a cleared model, stamping each piece at the running offset lays the pieces' rows side by side from column 0, leaves every other cell EMPTY, and ends with the offset equal to the summed width |
| `Generator.StampFinish` | src/main/kotlin/VladavLevelGenerator.kt:308-311 | the exit segment stamped at the offset after the last piece completes every piece row: the pieces, then the segment |
| `Generator.PlaceStart` | src/main/kotlin/VladavLevelGenerator.kt:319-320 | cell `(0, height/2)` becomes the start marker, cell `(0, 0)` becomes ground, and nothing else changes |
| `Generator.OverridesGiveExpected` | src/main/kotlin/VladavLevelGenerator.kt:319-320 | after the overrides every cell holds its expected tile: the layout, except the start marker and ground in column 0 |
| `Generator.Assemble` | src/main/kotlin/VladavLevelGenerator.kt:298-320 | for any allocation leaving at least 3 columns and any reordering of its plan, the width check always passes and the level is assembled from that order |
| `Generator.GetGeneratedLevel` | src/main/kotlin/VladavLevelGenerator.kt:230-323 | fails, always with NotEnoughSpace, exactly when the hard pieces leave fewer than 10 columns; otherwise the allocation is as specified, the stamped order is its shuffle, the pieces and exit segment tile the level width exactly, and every cell holds its expected tile |
| `Generator.LevelCell` | src/main/kotlin/VladavLevelGenerator.kt:302-311 | away from the two column-0 overrides, each of the 16 piece rows of a generated level is the pieces laid side by side followed by the exit segment |
| `Generator.ExitAtEnd` | src/main/kotlin/VladavLevelGenerator.kt:308-310 | every generated level has the exit flag at row 12 and its block at row 13 of the second-to-last column, with ground at rows 14 and 15 of the last column |
| `Generator.PiecesAtOffsets` | src/main/kotlin/VladavLevelGenerator.kt:302-306 | every stamped piece appears unchanged at the summed width of the pieces before it, except at the column-0 overrides |

## Left out

- `RunGame.kt`: host wiring. It builds the engine model and timer, runs an agent and prints output. The one fact used from it is the 150x16 level size, in `Example150`.
- The `println` tracing in `getGeneratedLevel` has no effect on the level.
- `MarioTimer` is accepted by the generator but never used.
- `model.map`'s text serialisation is engine code. `GetGeneratedLevel` returns the filled model instead.
- `getGeneratorName` relies on reflection.
- The engine's level model is not part of this model. Its constants are fixed to EMPTY `'-'`, GROUND `'X'` and MARIO_START `'M'`. `setBlock` is modelled only for in-bounds cells.
- GetGeneratedLevel: requires a model at least 16 rows tall, because every piece has 16 rows and `setBlock` is modelled only in bounds; what the engine does with out-of-range writes is not modelled. On NotEnoughSpace the Kotlin has already cleared the caller's model (`clearMap` at :232 runs before the `require` at :274 throws); the Failure carries no model, so that side effect of a failed call is not modelled.
- The uniformity of `Random.Default` is not modelled. Every draw and swap index is an input.
- The tile art of the nine premade pieces is not modelled. The allocator sees only their sizes. `Banks.Valid` asks for valid pieces that are 16 rows tall and at least one column wide, which all nine are (16x16).
- Mirroring of pieces is not done by this code.
- Kotlin strings are sequences of UTF-16 code units, so `.length` and `rows[y][x]` (:18-19, :26) count code units. Rows are modelled as Dafny `string`s, which are sequences of characters. Every tile the generator uses is ASCII, and for ASCII the two agree.
- Kotlin's 32-bit `Int` is modelled as an unbounded integer. The widths involved are far below the 32-bit range.
