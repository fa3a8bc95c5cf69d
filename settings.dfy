/** The search settings of the duration-set searcher as one immutable value. */
module Settings {
  import opened Utils

  type Denominator = d: int | d > 0 witness 1

  /** An exact multiplier `num / den`. It stands for the float settings
      `durations_min_mult` and `durations_max_mult`. */
  datatype Ratio = Ratio(num: int, den: Denominator)

  /** `math.floor(a * m)` on the exact product. */
  function FloorMul(a: int, m: Ratio): int
  {
    (a * m.num) / m.den
  }

  /** `math.ceil(a * m)` on the exact product. */
  function CeilMul(a: int, m: Ratio): int
  {
    -((-(a * m.num)) / m.den)
  }

  /** FloorMul is the greatest integer not above `a * m`. */
  lemma FloorMulIsFloor(a: int, m: Ratio)
    ensures FloorMul(a, m) * m.den <= a * m.num < FloorMul(a, m) * m.den + m.den
  {
  }

  /** CeilMul is the least integer not below `a * m`. */
  lemma CeilMulIsCeil(a: int, m: Ratio)
    ensures CeilMul(a, m) * m.den - m.den < a * m.num <= CeilMul(a, m) * m.den
  {
    var q := (-(a * m.num)) / m.den;
    assert q * m.den <= -(a * m.num) < q * m.den + m.den;
  }

  /** The settings block of the script, one field per constant. */
  datatype SearchConfig = SearchConfig(
    durations: Span,        // durations_range: every non-forced duration
    minDiff: int,           // durations_min_diff
    minMult: Ratio,         // durations_min_mult
    maxMult: Ratio,         // durations_max_mult
    setSize: Span,          // duration_set_size_range
    forcedPrefix: seq<int>, // duration_set_forced_first_added
    poolLength: Span,       // pool_length_range: read only by the entry point, which is not modelled
    poolSum: Span,          // pool_target_sum_range
    minPoolsPerSum: int     // min_pools_with_the_same_sum
  )

  /** The settings the script ships with: 1.5 is 3/2 and 4.0 is 4/1, both
      exact in binary floating point. */
  const Shipped := SearchConfig(
    Span(4, 25), 2, Ratio(3, 2), Ratio(4, 1), Span(3, 20), [1, 2],
    Span(4, 4), Span(3, 20), 3)
}
