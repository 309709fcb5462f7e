/** What the executive page computes from decimal texts: progress towards a target in tenths of a
    percent, and signed percentages rounded to one place. All of it is integer arithmetic. */
module Presentation {
  import opened Digits
  import opened Decimals
  import opened Wrappers

  /** Division of big integers: the quotient is rounded towards zero. */
  function Truncate(a: int, b: int): int
    requires b > 0
  {
    if a >= 0 then a / b else -((-a) / b)
  }

  function Clamp(tenths: int): (t: nat)
    ensures t <= 1000
  {
    if tenths < 0 then 0 else if tenths > 1000 then 1000 else tenths
  }

  function Tenths(value: int, target: int): int
    requires target > 0
  {
    Truncate(value * 1000 + target / 2, target)
  }

  /** The progress bar, in tenths of a percent; none when a text is no decimal or the target is
      not positive. */
  function TargetProgress(value: string, target: string): Option<nat> {
    if !IsNumeral(value) || !IsNumeral(target) then None
    else
      var pair := [Read(value), Read(target)];
      var scale := CommonScale(pair);
      assert pair[0] == Read(value) && pair[1] == Read(target);
      Progress(Units(pair[0], scale), Units(pair[1], scale))
  }

  function Progress(value: int, target: int): Option<nat> {
    if target <= 0 then None else Some(Clamp(Tenths(value, target)))
  }

  // ---------------------------------------------------------- rounding

  /** q is value / target in thousandths, rounded to the nearest with halves going up. */
  predicate IsNearest(q: int, value: int, target: int) {
    q * (2 * target) <= 2000 * value + target < q * (2 * target) + 2 * target
  }

  lemma DivideBounds(a: nat, b: nat)
    requires b > 0
    ensures (a / b) * b <= a < (a / b) * b + b
  {
    assert a == (a / b) * b + a % b;
  }

  lemma Double(q: int, t: int)
    ensures q * (2 * t) == 2 * (q * t)
  {
  }

  lemma TenthsAreNearest(value: nat, target: nat)
    requires target > 0
    ensures Tenths(value, target) >= 0 && IsNearest(Tenths(value, target), value, target)
  {
    var a := value * 1000 + target / 2;
    DivideBounds(a, target);
    Double(a / target, target);
  }

  lemma NearestIsUnique(p: int, q: int, value: int, target: int)
    requires target > 0 && IsNearest(p, value, target) && IsNearest(q, value, target)
    ensures p == q
  {
    NearestOrder(p, q, value, value, target);
    NearestOrder(q, p, value, value, target);
  }

  lemma NearestOrder(p: int, q: int, low: int, high: int, target: int)
    requires target > 0 && low <= high && IsNearest(p, low, target) && IsNearest(q, high, target)
    ensures p <= q
  {
    if q < p {
      Step(q, p, 2 * target);
    }
  }

  lemma Step(q: int, p: int, t: int)
    requires q < p && t > 0
    ensures q * t + t <= p * t
  {
    assert p * t - q * t == (p - q) * t;
    Grow(p - q, t);
  }

  lemma Grow(k: int, t: int)
    requires k >= 1 && t > 0
    ensures k * t >= t
  {
  }

  lemma SmallQuotient(a: nat, b: nat)
    requires a < b
    ensures a / b == 0
  {
    DivideBounds(a, b);
    if a / b >= 1 {
      Grow(a / b, b);
    }
  }

  lemma QuotientIsNat(a: nat, b: nat)
    requires b > 0
    ensures a / b >= 0
  {
  }

  lemma TruncateBelow(a: int, b: int)
    requires a < b && b > 0
    ensures Truncate(a, b) <= 0
  {
    if a >= 0 {
      SmallQuotient(a, b);
    } else {
      QuotientIsNat(-a, b);
    }
  }

  lemma NegativeHasNoProgress(value: int, target: int)
    requires value < 0 && target > 0
    ensures Clamp(Tenths(value, target)) == 0
  {
    TruncateBelow(value * 1000 + target / 2, target);
  }

  lemma NearestScales(q: int, value: int, target: int, p: nat)
    requires p >= 1 && IsNearest(q, value, target)
    ensures IsNearest(q, value * p, target * p)
  {
    Stretch(q * (2 * target), 2000 * value + target, p);
    StretchStrictly(2000 * value + target, q * (2 * target) + 2 * target, p);
    ScaleProduct(q, target, p);
    ScaleSumOf(value, target, p);
  }

  lemma Stretch(x: int, y: int, p: nat)
    requires x <= y
    ensures x * p <= y * p
  {
  }

  lemma StretchStrictly(x: int, y: int, p: nat)
    requires x < y && p >= 1
    ensures x * p < y * p
  {
  }

  lemma ScaleProduct(q: int, target: int, p: int)
    ensures q * (2 * (target * p)) == (q * (2 * target)) * p
    ensures (q * (2 * target) + 2 * target) * p == (q * (2 * target)) * p + 2 * (target * p)
  {
    assert q * (2 * (target * p)) == (q * (2 * target)) * p;
  }

  lemma ScaleSumOf(value: int, target: int, p: int)
    ensures 2000 * (value * p) + target * p == (2000 * value + target) * p
  {
  }

  // ---------------------------------------------------------- progress

  lemma SignAtAnyScale(n: Numeral, a: nat, b: nat)
    requires |n.fraction| <= a && |n.fraction| <= b
    ensures Units(n, a) > 0 <==> Units(n, b) > 0
  {
    UnitsAtLargerScale(n, a, a + b, b);
    UnitsAtLargerScale(n, b, a + b, a);
    SignOfProduct(Units(n, a), Pow10(b));
    SignOfProduct(Units(n, b), Pow10(a));
  }

  /** There is progress to show exactly when both texts are decimals and the target is positive. */
  lemma ProgressShownIff(value: string, target: string, scale: nat)
    requires IsNumeral(target) ==> |Read(target).fraction| <= scale
    ensures TargetProgress(value, target).Some? <==>
              IsNumeral(value) && IsNumeral(target) && Units(Read(target), scale) > 0
  {
    if IsNumeral(value) && IsNumeral(target) {
      var pair := [Read(value), Read(target)];
      assert pair[0] == Read(value) && pair[1] == Read(target);
      SignAtAnyScale(Read(target), CommonScale(pair), scale);
    }
  }

  /** Between zero and the target the progress is the nearest tenth of a percent: twice the error, in
      units of the target, is at most the target. */
  lemma ProgressIsNearestTenth(value: nat, target: nat)
    requires value <= target && target > 0
    ensures var q: int := Progress(value, target).value;
            2 * (q * target - 1000 * value) <= target && 2 * (1000 * value - q * target) <= target
  {
    TenthsAreNearest(value, target);
    Double(Tenths(value, target), target);
    TenthsAreNearest(target, target);
    assert 1000 * (2 * target) == 2000 * target;
    NearestIsUnique(Tenths(target, target), 1000, target, target);
    NearestOrder(Tenths(value, target), 1000, value, target, target);
  }

  /** More is never shown as less. */
  lemma ProgressIsMonotone(low: int, high: int, target: int)
    requires low <= high && target > 0
    ensures Progress(low, target).value <= Progress(high, target).value
  {
    if low < 0 {
      NegativeHasNoProgress(low, target);
    } else {
      TenthsAreNearest(low, target);
      TenthsAreNearest(high, target);
      NearestOrder(Tenths(low, target), Tenths(high, target), low, high, target);
    }
  }

  /** Nothing is reached at or below zero, and everything at the target or above it. */
  lemma ProgressAtTheEnds(value: int, target: int)
    requires target > 0
    ensures value <= 0 ==> Progress(value, target) == Some(0)
    ensures value >= target ==> Progress(value, target) == Some(1000)
  {
    ProgressIsMonotone(if value <= 0 then value else 0, 0, target);
    SmallQuotient(target / 2, target);
    if value >= target {
      TenthsAreNearest(target, target);
      assert 1000 * (2 * target) == 2000 * target;
      NearestIsUnique(Tenths(target, target), 1000, target, target);
      ProgressIsMonotone(target, value, target);
    }
  }

  lemma ProgressScales(value: int, target: int, p: nat)
    requires p >= 1
    ensures Progress(value * p, target * p) == Progress(value, target)
  {
    SignOfProduct(value, p);
    SignOfProduct(target, p);
    if target > 0 {
      if value < 0 {
        NegativeHasNoProgress(value, target);
        NegativeHasNoProgress(value * p, target * p);
      } else {
        TenthsAreNearest(value, target);
        NearestScales(Tenths(value, target), value, target, p);
        TenthsAreNearest(value * p, target * p);
        NearestIsUnique(Tenths(value, target), Tenths(value * p, target * p), value * p, target * p);
      }
    }
  }

  lemma SignOfProduct(x: int, p: nat)
    requires p >= 1
    ensures (x > 0 <==> x * p > 0) && (x < 0 <==> x * p < 0)
  {
    if x > 0 {
      Grow(x, p);
    } else if x < 0 {
      Grow(-x, p);
      assert (-x) * p == -(x * p);
    }
  }

  /** The scale at which the texts are compared does not matter ... */
  lemma ProgressAtEveryScale(value: string, target: string, scale: nat)
    requires IsNumeral(value) && IsNumeral(target)
    requires |Read(value).fraction| <= scale && |Read(target).fraction| <= scale
    ensures TargetProgress(value, target) == Progress(Units(Read(value), scale), Units(Read(target), scale))
  {
    var pair := [Read(value), Read(target)];
    assert pair[0] == Read(value) && pair[1] == Read(target);
    CommonScaleIsLeast(pair, scale);
    var least := CommonScale(pair);
    var more := scale - least;
    UnitsAtLargerScale(pair[0], least, scale, more);
    UnitsAtLargerScale(pair[1], least, scale, more);
    ProgressScales(Units(pair[0], least), Units(pair[1], least), Pow10(more));
  }

  /** Two texts of the same number. */
  predicate SameValue(a: Numeral, b: Numeral) {
    var scale := CommonScale([a, b]);
    assert [a, b][0] == a && [a, b][1] == b;
    Units(a, scale) == Units(b, scale)
  }

  lemma SameValueAtEveryScale(a: Numeral, b: Numeral, scale: nat)
    requires SameValue(a, b) && |a.fraction| <= scale && |b.fraction| <= scale
    ensures Units(a, scale) == Units(b, scale)
  {
    var pair := [a, b];
    assert pair[0] == a && pair[1] == b;
    CommonScaleIsLeast(pair, scale);
    var least := CommonScale(pair);
    UnitsAtLargerScale(a, least, scale, scale - least);
    UnitsAtLargerScale(b, least, scale, scale - least);
  }

  /** ... so the progress depends on the two numbers alone, however they are written. */
  lemma ProgressDependsOnValues(value: string, target: string, value2: string, target2: string)
    requires IsNumeral(value) && IsNumeral(value2) && SameValue(Read(value), Read(value2))
    requires IsNumeral(target) && IsNumeral(target2) && SameValue(Read(target), Read(target2))
    ensures TargetProgress(value, target) == TargetProgress(value2, target2)
  {
    var all := [Read(value), Read(target), Read(value2), Read(target2)];
    var scale := CommonScale(all);
    assert all[0] == Read(value) && all[1] == Read(target) && all[2] == Read(value2) && all[3] == Read(target2);
    ProgressAtEveryScale(value, target, scale);
    ProgressAtEveryScale(value2, target2, scale);
    SameValueAtEveryScale(Read(value), Read(value2), scale);
    SameValueAtEveryScale(Read(target), Read(target2), scale);
  }

  /** A trailing zero is such another way to write a number. */
  lemma TrailingZeroIsSameValue(n: Numeral)
    ensures SameValue(n, n.(fraction := n.fraction + "0"))
  {
    var longer := n.(fraction := n.fraction + "0");
    var pair := [n, longer];
    assert pair[0] == n && pair[1] == longer;
    var scale := CommonScale(pair);
    var fill := scale - |longer.fraction|;
    ZerosSum(1, fill);
    assert Zeros(1) == "0";
    assert longer.fraction + Zeros(fill) == n.fraction + Zeros(1 + fill);
  }

  // ---------------------------------------------------------- percentages

  /** The digits after the rounding place: '0' where the text has none. */
  function FractionDigit(n: Numeral, i: nat): nat {
    if i < |n.fraction| then DigitValue(n.fraction[i]) else 0
  }

  function PercentTenths(n: Numeral): nat {
    Parse(n.whole) * 10 + FractionDigit(n, 0) + (if FractionDigit(n, 1) >= 5 then 1 else 0)
  }

  method FormatSignedPercent(value: Option<string>) returns (text: string)
    ensures value.None? ==> text == "not comparable"
    ensures value.Some? && !IsNumeral(value.value) ==> text == value.value + "%"
    ensures value.Some? && IsNumeral(value.value) ==>
              var tenths := PercentTenths(Read(value.value));
              text == (if Negative(value.value) then "-" else "+")
                        + Render(tenths / 10) + "." + Render(tenths % 10) + "%"
  {
    if value.None? {
      return "not comparable";
    }
    if !IsNumeral(value.value) {
      return value.value + "%";
    }
    var n := Read(value.value);
    var tenths := Parse(n.whole) * 10 + FractionDigit(n, 0);
    if FractionDigit(n, 1) >= 5 {
      tenths := tenths + 1;
    }
    var rounded := Render(tenths / 10) + "." + Render(tenths % 10);
    return (if n.negative then "-" else "+") + rounded + "%";
  }

  lemma {:induction false} ParseBound(s: string)
    requires AllDigits(s)
    ensures Parse(s) < Pow10(|s|)
    decreases |s|
  {
    if s != "" {
      ParseBound(s[..|s| - 1]);
    }
  }

  /** The digits of a text: those up to the rounding place, the next one, and the rest. */
  lemma DigitsAround(n: Numeral) returns (kept: nat, next: nat, rest: nat)
    ensures kept == Parse(n.whole) * 10 + FractionDigit(n, 0) && next == FractionDigit(n, 1) < 10
    ensures rest < Pow10(|n.fraction|)
    ensures Magnitude(n, |n.fraction| + 2) == (10 * kept + next) * Pow10(|n.fraction|) + rest
  {
    var digits := n.fraction + Zeros(2);
    var head, tail := n.whole + [digits[0]], digits[2..];
    kept, next, rest := Parse(head), DigitValue(digits[1]), Parse(tail);
    assert |tail| == |n.fraction|;
    ParseSnoc(n.whole, digits[0]);
    ParseSnoc(head, digits[1]);
    assert n.whole + digits == (head + [digits[1]]) + tail;
    ParseConcat(head + [digits[1]], tail);
    ParseBound(tail);
  }

  /** Looking at one digit past the rounding place is enough: the tenths are the nearest to the
      whole text, halves going up. The comparison is in units of two more digits than the text has. */
  lemma PercentIsNearestTenth(n: Numeral)
    ensures var scale := |n.fraction| + 2; var tenth := Pow10(scale - 1);
            var rounded, exact := PercentTenths(n) * tenth, Magnitude(n, scale);
            2 * (rounded - exact) <= tenth && 2 * (exact - rounded) < tenth
  {
    var kept, next, rest := DigitsAround(n);
    RoundUpFromFive(kept, next, Pow10(|n.fraction|), rest);
  }

  lemma RoundUpFromFive(kept: nat, digit: nat, p: nat, rest: nat)
    requires digit < 10 && rest < p
    ensures var exact := (10 * kept + digit) * p + rest;
            var rounded := kept + if digit >= 5 then 1 else 0;
            2 * (rounded * (10 * p) - exact) <= 10 * p && 2 * (exact - rounded * (10 * p)) < 10 * p
  {
    assert (10 * kept + digit) * p == kept * (10 * p) + digit * p;
    assert (kept + 1) * (10 * p) == kept * (10 * p) + 10 * p;
    DigitTimes(digit, p);
  }

  lemma DigitTimes(digit: nat, p: nat)
    ensures digit <= 4 ==> digit * p <= 4 * p
    ensures 5 <= digit <= 9 ==> 5 * p <= digit * p <= 9 * p
  {
  }
}
