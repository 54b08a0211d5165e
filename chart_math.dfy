/** Numeric helpers shared by the two chart components of the recruitment dashboard. */
module ChartMath {

  /** Why a chart cannot be laid out: every case is one where the component divides by zero
      or takes the maximum of nothing, and so would draw NaN. */
  datatype ChartError =
    | EmptySeries   // bar chart with no points: Math.max() of nothing is -Infinity
    | FlatRange     // bar chart whose values are all equal: the bar height divides by range 0
    | ZeroTotal     // pie chart whose values add up to 0: every share divides by 0

  datatype Result<T> = Ok(value: T) | Err(error: ChartError)

  /** JavaScript's Math.round on an exact real: the nearest integer, a half rounded up. */
  function Round(x: real): (r: int)
    ensures r as real - 0.5 <= x < r as real + 0.5
  {
    (x + 0.5).Floor
  }

  /** Rounding never reverses the order of two numbers. */
  lemma RoundMonotone(x: real, y: real)
    requires x <= y
    ensures Round(x) <= Round(y)
  {
  }

  /** An integer is its own rounding, and a half is rounded up. */
  lemma RoundIntegral(n: int)
    ensures Round(n as real) == n
    ensures Round(n as real + 0.5) == n + 1
  {
  }
}
