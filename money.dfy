/**
 * Money as integer cents. The UI computes amounts as JavaScript numbers and rounds them
 * with `toFixed(2)`; here an amount that is not yet rounded is held exactly in hundredths
 * of a cent, and `Round2` brings it to the nearest cent, halves going up.
 */
module Money {

  /** Rounds `h` hundredths of a cent to whole cents: the nearest cent, a half rounding up. */
  function Round2(h: int): (c: int)
    ensures 100 * c - 50 <= h < 100 * c + 50
  {
    (h + 50) / 100
  }

  /** An amount that is already whole cents is left as it is by rounding. */
  lemma Round2Whole(c: int)
    ensures Round2(100 * c) == c
  {
  }

  /** Rounding commutes with adding whole cents. */
  lemma Round2Shift(c: int, h: int)
    ensures Round2(100 * c + h) == c + Round2(h)
  {
    var r := Round2(h);
    assert 100 * (c + r) - 50 <= 100 * c + h < 100 * (c + r) + 50;
    Round2Unique(100 * c + h, c + r);
  }

  /** The rounding bounds determine the rounded value. */
  lemma Round2Unique(h: int, c: int)
    requires 100 * c - 50 <= h < 100 * c + 50
    ensures Round2(h) == c
  {
  }

  /** Rounding never turns a non-negative amount negative. */
  lemma Round2NonNegative(h: int)
    requires h >= 0
    ensures Round2(h) >= 0
  {
  }

  /** `percent` per cent of `cents`, rounded to the cent. */
  function PercentOf(cents: int, percent: int): (c: int)
    ensures 100 * c - 50 <= cents * percent < 100 * c + 50
  {
    Round2(cents * percent)
  }
}
