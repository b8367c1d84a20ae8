/** Rounding to two decimals, as `toFixed(2)` does it on exact numbers. */
module Rounding {

  /** Nearest hundredth; a tie goes away from zero. */
  function Round2(x: real): real {
    if x < 0.0 then -RoundUp2(-x) else RoundUp2(x)
  }

  function RoundUp2(x: real): real {
    (x * 100.0 + 0.5).Floor as real / 100.0
  }

  lemma Round2Close(x: real)
    ensures -0.005 <= Round2(x) - x <= 0.005
  {
  }
}
