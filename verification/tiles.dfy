/** The tile alphabet the generator writes. The level engine's constants are
    not part of this model; the three used by the generator are fixed here to
    the characters the engine's text format uses. */
module Tiles {

  /** The transparent tile: never stamped, and what a cleared map holds. */
  const EMPTY: char := '-'

  /** Solid ground. */
  const GROUND: char := 'X'

  /** The player's start marker. */
  const MARIO_START: char := 'M'

  /** The exit flag drawn by the exit segment. */
  const EXIT_FLAG: char := 'F'

  /** The block the exit segment puts under the flag. */
  const EXIT_BLOCK: char := '#'

  /** Every premade piece and the exit segment are this many rows tall. */
  const PIECE_HEIGHT: nat := 16
}
