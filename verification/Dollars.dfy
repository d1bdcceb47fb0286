/** Amounts of money. */
module Dollars {
  /** Costs and estimates below zero count as zero. */
  function NonNegative(x: real): real {
    if x < 0.0 then 0.0 else x
  }

  function Max(x: real, y: real): real {
    if x < y then y else x
  }
}
