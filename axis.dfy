/**
 * The AXIS score of lib/axis.ts: the mean of the three sub-scores, rounded to one decimal place.
 *
 * Scores are integer TENTHS of a point (4.3 is 43), so a score with one decimal place is exact.
 * The sub-scores an assessment carries lie in [1, 5], i.e. [10, 50] tenths.
 */
module Axis {
  import opened Wrappers

  /** A sub-score with at most one decimal place in [1, 5], in tenths. */
  type SubScore = t: int | 10 <= t <= 50 witness 10

  /**
   * `Number(((ra + ie + hs) / 3).toFixed(1))` on tenths. `toFixed(1)` picks the number of tenths n
   * closest to the mean, and the larger one on a tie; in tenths the mean is (ra + ie + hs) / 3.
   */
  function CalculateAxisScore(ra: int, ie: int, hs: int): (axis: int)
    ensures (ra + ie + hs) as real / 3.0 - 0.5 < axis as real <= (ra + ie + hs) as real / 3.0 + 0.5
  {
    (ra + ie + hs + 1) / 3
  }

  /** The rounding of the contract picks exactly one number of tenths: the result is THE rounded mean. */
  lemma RoundedMeanIsUnique(ra: int, ie: int, hs: int, n: int)
    requires (ra + ie + hs) as real / 3.0 - 0.5 < n as real <= (ra + ie + hs) as real / 3.0 + 0.5
    ensures n == CalculateAxisScore(ra, ie, hs)
  {
    var m := CalculateAxisScore(ra, ie, hs);
    assert n as real - m as real < 1.0 && m as real - n as real < 1.0;
  }

  /** For sub-scores in [1, 5] the score lies in [1, 5] (within the 0..5 the doc comment promises). */
  lemma AxisScoreInRange(ra: SubScore, ie: SubScore, hs: SubScore)
    ensures 10 <= CalculateAxisScore(ra, ie, hs) <= 50
  {
  }

  /** The three sub-scores play the same role: any permutation gives the same score. */
  lemma AxisScoreSymmetric(ra: int, ie: int, hs: int)
    ensures CalculateAxisScore(ra, ie, hs) == CalculateAxisScore(ie, ra, hs)
    ensures CalculateAxisScore(ra, ie, hs) == CalculateAxisScore(ra, hs, ie)
    ensures CalculateAxisScore(ra, ie, hs) == CalculateAxisScore(hs, ie, ra)
  {
  }

  /** Three equal sub-scores with one decimal place give that value back, e.g. (4, 4, 4) gives 4. */
  lemma AxisScoreOfEqualScores(x: int)
    ensures CalculateAxisScore(x, x, x) == x
  {
  }

  /** Raising one sub-score never lowers the score (by symmetry, this covers every position). */
  lemma AxisScoreMonotone(ra: int, ra': int, ie: int, hs: int)
    requires ra <= ra'
    ensures CalculateAxisScore(ra, ie, hs) <= CalculateAxisScore(ra', ie, hs)
  {
  }

  /** The decimal digit `d`. */
  function Digit(d: int): (c: char)
    requires 0 <= d <= 9
    ensures '0' <= c <= '9' && (c as int) - ('0' as int) == d
  {
    "0123456789"[d]
  }

  /**
   * How a template literal prints a score (JavaScript's number-to-string): "4" for 40 tenths,
   * "4.3" for 43; a whole number gets no ".0".
   */
  function FormatTenths(t: SubScore): (s: string)
    ensures |s| == 1 || |s| == 3
    ensures s[0] == Digit(t / 10)
    ensures |s| == 3 <==> t % 10 != 0
    ensures |s| == 3 ==> s[1] == '.' && s[2] == Digit(t % 10)
  {
    [Digit(t / 10)] + (if t % 10 == 0 then "" else "." + [Digit(t % 10)])
  }

  /** Reads a printed score back: one digit, or one digit, a point and a non-zero digit, in [1, 5]. */
  function ParseTenths(s: string): (r: Option<SubScore>)
  {
    if |s| == 1 && '0' <= s[0] <= '9' then
      var t := 10 * ((s[0] as int) - ('0' as int));
      if 10 <= t <= 50 then Some(t) else None
    else if |s| == 3 && '0' <= s[0] <= '9' && s[1] == '.' && '1' <= s[2] <= '9' then
      var t := 10 * ((s[0] as int) - ('0' as int)) + ((s[2] as int) - ('0' as int));
      if 10 <= t <= 50 then Some(t) else None
    else None
  }

  /** Printing loses nothing: the printed score reads back as the same score. */
  lemma FormatTenthsRoundTrip(t: SubScore)
    ensures ParseTenths(FormatTenths(t)) == Some(t)
  {
    var s := FormatTenths(t);
    if t % 10 == 0 {
      assert |s| == 1;
    } else {
      assert |s| == 3;
    }
  }

  /** Distinct scores print differently, so the "AXIS: <score>" tag names one score. */
  lemma FormatTenthsInjective(a: SubScore, b: SubScore)
    requires FormatTenths(a) == FormatTenths(b)
    ensures a == b
  {
    FormatTenthsRoundTrip(a);
    FormatTenthsRoundTrip(b);
  }
}
