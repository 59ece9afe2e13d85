/**
 * Intervals as the pitch and chord code sees them.  An interval is a
 * displacement in the coordinate space; what lib/interval.js derives from
 * it (quality, number, class name, inversion, simple part, direction, short
 * name) is not part of this model and is supplied by the caller as an
 * `IntervalLib`, so that nothing here depends on how those are computed.
 */
module Intervals {
  import opened Coords
  import Knowledge

  datatype Interval = Interval(coord: Coord)

  datatype Direction = Up | Down

  /**
   * The operations of lib/interval.js the core calls.  `base` takes the
   * `octaveIsSimple` setting as an argument instead of reading a global,
   * and `octaveIsSimple` carries the setting in force.
   */
  datatype IntervalLib = IntervalLib(
    quality: Interval -> string,                     // 'dd', 'd', 'm', 'M', 'P', 'A', 'AA', ...
    number: Interval -> int,                         // signed interval number
    base: (Interval, bool) -> string,                // class name, given octaveIsSimple
    octaveIsSimple: bool,
    invert: Interval -> Interval,
    simple: (Interval, bool) -> Interval,            // simple(ignoreDirection)
    direction: Interval -> Direction,                // direction()
    setDirection: (Interval, Direction) -> Interval, // direction(dir)
    toString: Interval -> string)                    // short name such as 'm3'

  /**
   * The named intervals the core spells out as literals.  Their sizes are
   * the minor and perfect entries of the reference table; a descending
   * interval is the negated ascending one.
   */
  const MinorSecond := Interval(Knowledge.Intervals[1].1)
  const MinorThird := Interval(Knowledge.Intervals[2].1)
  const PerfectFourth := Interval(Knowledge.Intervals[3].1)
  const PerfectFifth := Interval(Knowledge.Intervals[4].1)
  const MinorSecondDown := Interval(Mul(MinorSecond.coord, -1))
  const MinorThirdDown := Interval(Mul(MinorThird.coord, -1))
}
