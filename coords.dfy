/**
 * The coordinate space pitches and intervals live in: a pair of integers
 * counting diatonic (letter) steps and chromatic semitones.  Two counters
 * instead of one are what keep enharmonic spellings apart: C#4 and Db4 have
 * the same semitone count but different step counts.
 */
module Coords {

  datatype Coord = Coord(steps: int, semis: int)

  /** Component-wise sum (`vector.add`). */
  function Add(a: Coord, b: Coord): Coord {
    Coord(a.steps + b.steps, a.semis + b.semis)
  }

  /** Component-wise difference (`vector.sub`). */
  function Sub(a: Coord, b: Coord): Coord {
    Coord(a.steps - b.steps, a.semis - b.semis)
  }

  /** Component-wise scaling (`vector.mul`). */
  function Mul(a: Coord, k: int): Coord {
    Coord(a.steps * k, a.semis * k)
  }
}
