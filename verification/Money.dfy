/** Rounding to whole paise. Amounts are integers in paise, or reals before rounding. */
module Money {

  /** `roundInr`: the nearest paisa, halves upwards. */
  function Round(paise: real): int {
    (paise + 0.5).Floor
  }

  lemma RoundNear(paise: real)
    ensures -0.5 <= paise - Round(paise) as real
    ensures paise - Round(paise) as real < 0.5
  {
  }

  /** Rounding is the only whole number that close, so whole amounts are unchanged. */
  lemma RoundUnique(paise: real, n: int)
    requires -0.5 <= paise - n as real < 0.5
    ensures Round(paise) == n
  {
  }
}
