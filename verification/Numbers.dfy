/** Real-number helpers: prices and lots are exact reals, rounding is explicit. */
module Numbers {

  function Abs(x: real): real {
    if x < 0.0 then -x else x
  }

  function Min(a: real, b: real): real {
    if b < a then b else a
  }

  function Max(a: real, b: real): real {
    if b > a then b else a
  }

  /** Math.round: the nearest integer, halves upwards. */
  function Round(x: real): int {
    (x + 0.5).Floor
  }

  /** Math.round(x * 100) / 100: the nearest hundredth. */
  function Round2(x: real): real {
    Round(x * 100.0) as real / 100.0
  }

  /** Rounds to the precision of an instrument; a factor of 0 stands for no rounding. */
  function RoundTo(x: real, factor: real): real {
    if factor == 0.0 then x else Round(x * factor) as real / factor
  }

  lemma RoundToMonotone(x: real, y: real, factor: real)
    requires x <= y && factor >= 0.0
    ensures RoundTo(x, factor) <= RoundTo(y, factor)
  {
    if factor > 0.0 {
      MulMonotone(factor, x, y);
      RoundMonotone(x * factor, y * factor);
      DivMonotone(Round(x * factor) as real, Round(y * factor) as real, factor);
    }
  }

  lemma DivMonotone(a: real, b: real, d: real)
    requires a <= b && d > 0.0
    ensures a / d <= b / d
  {
  }

  lemma Round2Near(x: real)
    ensures x - 0.005 < Round2(x) <= x + 0.005
  {
    var n := Round(x * 100.0);
    assert n as real <= x * 100.0 + 0.5 < n as real + 1.0;
  }

  lemma RoundMonotone(x: real, y: real)
    requires x <= y
    ensures Round(x) <= Round(y)
  {
    assert Round(x) as real <= y + 0.5 < Round(y) as real + 1.0;
  }

  lemma Round2Monotone(x: real, y: real)
    requires x <= y
    ensures Round2(x) <= Round2(y)
  {
    RoundMonotone(x * 100.0, y * 100.0);
  }

  lemma MulMonotone(k: real, a: real, b: real)
    requires k >= 0.0 && a <= b
    ensures k * a <= k * b
  {
  }

  /** `r` is `x` rounded to the nearest multiple of 1/factor, halves upwards; a factor of 0 rounds nothing. */
  ghost predicate IsRounded(r: real, x: real, factor: real) {
    if factor == 0.0 then r == x
    else (r * factor).Floor as real == r * factor && r * factor <= x * factor + 0.5 < r * factor + 1.0
  }

  lemma RoundToIsRounded(x: real, factor: real)
    ensures IsRounded(RoundTo(x, factor), x, factor)
  {
    if factor != 0.0 {
      var n := Round(x * factor);
      assert RoundTo(x, factor) * factor == n as real;
    }
  }

  lemma Round2IsRounded(x: real)
    ensures IsRounded(Round2(x), x, 100.0)
  {
    var n := Round(x * 100.0);
    assert Round2(x) * 100.0 == n as real;
  }

  /** Rounding has one answer. */
  lemma RoundedOnce(a: real, b: real, x: real, factor: real)
    requires factor > 0.0 && IsRounded(a, x, factor) && IsRounded(b, x, factor)
    ensures a == b
  {
    SameFloor(a * factor, b * factor, x * factor);
    assert a * factor / factor == a && b * factor / factor == b;
  }

  lemma SameFloor(a: real, b: real, x: real)
    requires a.Floor as real == a && b.Floor as real == b
    requires a <= x + 0.5 < a + 1.0 && b <= x + 0.5 < b + 1.0
    ensures a == b
  {
    assert a.Floor < b.Floor + 1 && b.Floor < a.Floor + 1;
  }
}
