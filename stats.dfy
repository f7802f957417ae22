/**
  The summary-statistics value stored under a key: an observation count and
  the minimum, maximum and sum of the observations. Doubles are modelled as
  exact reals; the only floating-point values the module itself produces are
  the two finite extremes of the IEEE 754 double type used as sentinels.
 */
module Stats {

  /** A signed 64-bit integer, the type of the count field. */
  newtype i64 = x: int | -0x8000_0000_0000_0000 <= x < 0x8000_0000_0000_0000

  /** The largest finite double, (2 - 2^-52) * 2^1023, written out exactly. */
  const F64_MAX: real := 179769313486231570814527423731704356798070567525844996598917476803157260780028538760589558632766878171540458953514382464234321326889464182768467546703537516986049910576551282076245490090389328944075868508455133942304583236903222948165808559332123348274797826204144723168738177180919299881250404026184124858368.0

  /** The most negative finite double. */
  const F64_MIN: real := -F64_MAX

  datatype SummaryStatistics = SummaryStatistics(count: i64, min: real, max: real, sum: real)

  /** The minimum holds its "no observation yet" sentinel. */
  predicate MinIsSentinel(s: SummaryStatistics) {
    s.min == F64_MAX
  }

  /** The maximum holds its "no observation yet" sentinel. */
  predicate MaxIsSentinel(s: SummaryStatistics) {
    s.max == F64_MIN
  }

  /**
    The empty summary: nothing counted, nothing summed, and both extremes at
    their sentinels, so that the minimum lies above the maximum.
   */
  function Default(): (s: SummaryStatistics)
    ensures s.count == 0 && s.sum == 0.0
    ensures MinIsSentinel(s) && MaxIsSentinel(s)
    ensures s.min > s.max
  {
    SummaryStatistics(0, F64_MAX, F64_MIN, 0.0)
  }
}
