/** Exact decimals on their way from the query service to the page: the service prints a decimal
    as its shortest text, and the page reads texts back as scaled integers to check sums and to
    round. A decimal is an integer number of units at a scale: 12.5 at scale 6 is 12500000. */
module Decimals {
  import opened Digits

  function Pow10(k: nat): (p: nat)
    ensures p >= 1
  {
    if k == 0 then 1 else 10 * Pow10(k - 1)
  }

  function Zeros(k: nat): (s: string)
    ensures |s| == k && AllDigits(s) && forall i | 0 <= i < k :: s[i] == '0'
  {
    if k == 0 then "" else Zeros(k - 1) + "0"
  }

  /** The last `width` digits of n, zero-filled. */
  function PadDigits(n: nat, width: nat): (s: string)
    ensures |s| == width && AllDigits(s)
  {
    if width == 0 then "" else PadDigits(n / 10, width - 1) + [DigitChar(n % 10)]
  }

  // ---------------------------------------------------------- digit strings

  lemma ParseSnoc(s: string, c: char)
    requires AllDigits(s) && IsDigit(c)
    ensures Parse(s + [c]) == 10 * Parse(s) + DigitValue(c)
  {
    assert (s + [c])[..|s|] == s;
  }

  lemma Horner(x: int, p: int, y: int, d: int)
    ensures 10 * (x * p + y) + d == x * (10 * p) + (10 * y + d)
  {
  }

  lemma {:induction false} ParseConcat(a: string, b: string)
    requires AllDigits(a) && AllDigits(b)
    ensures Parse(a + b) == Parse(a) * Pow10(|b|) + Parse(b)
    decreases |b|
  {
    if b == "" {
      assert a + b == a;
    } else {
      var front, last := b[..|b| - 1], b[|b| - 1];
      ParseConcat(a, front);
      assert b == front + [last] && a + b == (a + front) + [last];
      ParseSnoc(front, last);
      ParseSnoc(a + front, last);
      Horner(Parse(a), Pow10(|front|), Parse(front), DigitValue(last));
    }
  }

  lemma Distribute(x: int, p: int)
    ensures 10 * (x * p) == x * (10 * p)
  {
  }

  lemma {:induction false} ParseZeros(k: nat)
    ensures Parse(Zeros(k)) == 0
  {
    if k > 0 {
      ParseZeros(k - 1);
      assert Zeros(k)[..k - 1] == Zeros(k - 1);
    }
  }

  // ---------------------------------------------------------- reading: the page

  function DotAt(s: string): (i: nat)
    ensures i <= |s| && '.' !in s[..i] && (i < |s| ==> s[i] == '.')
  {
    if s == "" || s[0] == '.' then 0 else 1 + DotAt(s[1..])
  }

  predicate Negative(s: string) { s != "" && s[0] == '-' }

  function Body(s: string): string { if Negative(s) then s[1..] else s }

  function Whole(s: string): string { Body(s)[..DotAt(Body(s))] }

  function Fraction(s: string): string {
    var i := DotAt(Body(s));
    if i < |Body(s)| then Body(s)[i + 1..] else ""
  }

  /** An optional sign, digits, and optionally a point followed by digits. */
  predicate IsNumeral(s: string) {
    && Whole(s) != "" && AllDigits(Whole(s)) && AllDigits(Fraction(s))
    && (DotAt(Body(s)) < |Body(s)| ==> Fraction(s) != "")
  }

  datatype Parts = Parts(negative: bool, whole: string, fraction: string)

  type Numeral = n: Parts | AllDigits(n.whole) && AllDigits(n.fraction) witness Parts(false, "0", "")

  function Read(s: string): Numeral
    requires IsNumeral(s)
  {
    Parts(Negative(s), Whole(s), Fraction(s))
  }

  function Magnitude(n: Numeral, scale: nat): nat
    requires |n.fraction| <= scale
  {
    Parse(n.whole + (n.fraction + Zeros(scale - |n.fraction|)))
  }

  /** A numeral as an integer number of units at the given scale. */
  function Units(n: Numeral, scale: nat): int
    requires |n.fraction| <= scale
  {
    var m: int := Magnitude(n, scale);
    if n.negative then -m else m
  }

  /** A larger scale multiplies the units and changes nothing else. */
  lemma UnitsAtLargerScale(n: Numeral, scale: nat, larger: nat, more: nat)
    requires |n.fraction| <= scale && larger == scale + more
    ensures Units(n, larger) == Units(n, scale) * Pow10(more)
  {
    FillFurther(n.whole, n.fraction, scale - |n.fraction|, more);
    Negate(Magnitude(n, scale), Pow10(more));
  }

  lemma Negate(x: int, p: int)
    ensures (-x) * p == -(x * p)
  {
  }

  lemma FillFurther(whole: string, fraction: string, fill: nat, more: nat)
    requires AllDigits(whole) && AllDigits(fraction)
    ensures Parse(whole + (fraction + Zeros(fill + more))) == Parse(whole + (fraction + Zeros(fill))) * Pow10(more)
  {
    var short := whole + (fraction + Zeros(fill));
    ZerosSum(fill, more);
    Reassociate(whole, fraction, Zeros(fill), Zeros(more));
    ParseConcat(short, Zeros(more));
    ParseZeros(more);
  }

  lemma Reassociate(a: string, b: string, c: string, d: string)
    ensures a + (b + (c + d)) == (a + (b + c)) + d
  {
  }

  lemma {:induction false} ZerosSum(j: nat, k: nat)
    ensures Zeros(j + k) == Zeros(j) + Zeros(k)
  {
  }

  // ---------------------------------------------------------- printing: the service

  function RightStrip(s: string, c: char): (t: string)
    ensures t <= s && (t != "" ==> t[|t| - 1] != c)
    ensures forall i | |t| <= i < |s| :: s[i] == c
  {
    if s != "" && s[|s| - 1] == c then RightStrip(s[..|s| - 1], c) else s
  }

  function Abs(n: int): nat { if n < 0 then -n else n }

  function Sign(n: int): string { if n < 0 then "-" else "" }

  /** n without its last k digits. */
  function Shift(n: nat, k: nat): nat {
    if k == 0 then n else Shift(n / 10, k - 1)
  }

  lemma {:induction false} ParseShifted(n: nat, k: nat)
    ensures Parse(Render(Shift(n, k)) + PadDigits(n, k)) == n
    decreases k
  {
    var whole := Render(Shift(n, k));
    if k == 0 {
      assert whole + "" == whole;
      RenderRoundTrip(n);
    } else {
      ParseShifted(n / 10, k - 1);
      var text := whole + PadDigits(n, k);
      assert text[..|text| - 1] == whole + PadDigits(n / 10, k - 1);
    }
  }

  /** Fixed-point text with exactly `scale` fraction digits. */
  function Fixed(n: int, scale: nat): string {
    Sign(n) + Render(Shift(Abs(n), scale)) + (if scale == 0 then "" else "." + PadDigits(Abs(n), scale))
  }

  /** The service's text for a decimal: fixed-point, without trailing zeros. */
  function Print(n: int, scale: nat): string {
    var rendered := Fixed(n, scale);
    if '.' !in rendered then rendered
    else
      var stripped := RightStrip(RightStrip(rendered, '0'), '.');
      if stripped == "" then "0" else stripped
  }

  /** The fraction digits that remain. */
  function Significant(n: int, scale: nat): (digits: string)
    ensures |digits| <= scale && AllDigits(digits)
    ensures digits != "" ==> digits[|digits| - 1] != '0'
  {
    RightStrip(PadDigits(Abs(n), scale), '0')
  }

  function Pointed(digits: string): string {
    if digits == "" then "" else "." + digits
  }

  lemma {:induction false} RightStripConcat(a: string, b: string, c: char)
    ensures RightStrip(a + b, c) == if RightStrip(b, c) != "" then a + RightStrip(b, c) else RightStrip(a, c)
    decreases |b|
  {
    if b == "" {
      assert a + b == a;
    } else if b[|b| - 1] == c {
      assert (a + b)[..|a + b| - 1] == a + b[..|b| - 1];
      RightStripConcat(a, b[..|b| - 1], c);
    }
  }

  /** Stripping a text `head.fraction`. */
  lemma StripShape(head: string, fraction: string)
    requires head != "" && IsDigit(head[|head| - 1]) && AllDigits(fraction)
    ensures RightStrip(RightStrip(head + "." + fraction, '0'), '.') == head + Pointed(RightStrip(fraction, '0'))
  {
    RightStripConcat(head + ".", fraction, '0');
    var digits := RightStrip(fraction, '0');
    if digits == "" {
      StripPoint(head);
    } else {
      KeepDigits(head, digits);
    }
  }

  lemma StripPoint(head: string)
    requires head != "" && IsDigit(head[|head| - 1])
    ensures RightStrip(head + ".", '0') == head + "." && RightStrip(head + ".", '.') == head + ""
  {
    assert (head + ".")[..|head|] == head;
  }

  lemma KeepDigits(head: string, digits: string)
    requires digits != "" && AllDigits(digits)
    ensures head + "." + digits == head + Pointed(digits)
    ensures RightStrip(head + "." + digits, '.') == head + "." + digits
  {
  }

  /** What the text looks like: sign, whole part, and the significant fraction digits if any. */
  lemma PrintShape(n: int, scale: nat)
    ensures Print(n, scale) == Sign(n) + Render(Shift(Abs(n), scale)) + Pointed(Significant(n, scale))
  {
    var head := Sign(n) + Render(Shift(Abs(n), scale));
    var fraction := PadDigits(Abs(n), scale);
    if scale > 0 {
      assert Fixed(n, scale) == head + "." + fraction;
      assert Fixed(n, scale)[|head|] == '.';
      StripShape(head, fraction);
    }
  }

  lemma {:induction false} DotAfter(digits: string, rest: string)
    requires AllDigits(digits) && (rest != "" ==> rest[0] == '.')
    ensures DotAt(digits + rest) == |digits|
    decreases |digits|
  {
    if digits == "" {
      assert digits + rest == rest;
    } else {
      assert (digits + rest)[1..] == digits[1..] + rest;
      assert forall i | 0 <= i < |digits| - 1 :: digits[1..][i] == digits[i + 1];
      DotAfter(digits[1..], rest);
    }
  }

  lemma BodyParts(whole: string, digits: string)
    requires whole != "" && AllDigits(whole) && AllDigits(digits)
    ensures var body := whole + Pointed(digits); var i := DotAt(body);
            && body[..i] == whole
            && (i < |body| <==> digits != "")
            && (i < |body| ==> body[i + 1..] == digits)
  {
    DotAfter(whole, Pointed(digits));
  }

  lemma SignedBody(negative: bool, body: string)
    requires body != "" && IsDigit(body[0])
    ensures var text := (if negative then "-" else "") + body; Negative(text) == negative && Body(text) == body
  {
    assert ("-" + body)[1..] == body;
    assert "" + body == body;
  }

  lemma PartsOfBody(text: string, whole: string, digits: string)
    requires whole != "" && AllDigits(whole) && AllDigits(digits) && Body(text) == whole + Pointed(digits)
    ensures IsNumeral(text) && Whole(text) == whole && Fraction(text) == digits
  {
    BodyParts(whole, digits);
  }

  /** Taking apart a text put together from a sign, whole digits and fraction digits. */
  lemma NumeralParts(negative: bool, whole: string, digits: string)
    requires whole != "" && AllDigits(whole) && AllDigits(digits)
    ensures var text := (if negative then "-" else "") + whole + Pointed(digits);
            && IsNumeral(text) && Negative(text) == negative && Whole(text) == whole && Fraction(text) == digits
  {
    var sign, body := if negative then "-" else "", whole + Pointed(digits);
    assert body[0] == whole[0];
    assert sign + whole + Pointed(digits) == sign + body;
    SignedBody(negative, body);
    PartsOfBody(sign + body, whole, digits);
  }

  lemma StripAndFill(digits: string)
    requires AllDigits(digits)
    ensures var kept := RightStrip(digits, '0');
            AllDigits(kept) && kept + Zeros(|digits| - |kept|) == digits
  {
  }

  lemma PrintParts(n: int, scale: nat)
    ensures var text := Print(n, scale);
            && IsNumeral(text) && (Negative(text) <==> n < 0)
            && Whole(text) == Render(Shift(Abs(n), scale)) && Fraction(text) == Significant(n, scale)
  {
    PrintShape(n, scale);
    NumeralParts(n < 0, Render(Shift(Abs(n), scale)), Significant(n, scale));
  }

  /** Printing loses nothing: reading the text back at the same scale gives the same number. */
  lemma PrintRoundTrip(n: int, scale: nat)
    ensures IsNumeral(Print(n, scale)) && |Fraction(Print(n, scale))| <= scale
    ensures Units(Read(Print(n, scale)), scale) == n
  {
    PrintParts(n, scale);
    PartsRoundTrip(Read(Print(n, scale)), n, scale);
  }

  lemma MagnitudeOfParts(parts: Numeral, n: nat, scale: nat)
    requires parts.whole == Render(Shift(n, scale)) && |parts.fraction| <= scale
    requires parts.fraction + Zeros(scale - |parts.fraction|) == PadDigits(n, scale)
    ensures Magnitude(parts, scale) == n
  {
    ParseShifted(n, scale);
  }

  lemma PartsRoundTrip(parts: Numeral, n: int, scale: nat)
    requires parts == Parts(n < 0, Render(Shift(Abs(n), scale)), Significant(n, scale))
    ensures Units(parts, scale) == n
  {
    StripAndFill(PadDigits(Abs(n), scale));
    MagnitudeOfParts(parts, Abs(n), scale);
  }

  // ---------------------------------------------------------- canonical text

  predicate NoLeadingZeros(digits: string) {
    |digits| > 1 ==> digits[0] != '0'
  }

  /** The one text of a value: no leading or trailing zeros, and no negative zero. */
  predicate Canonical(s: string) {
    && IsNumeral(s) && NoLeadingZeros(Whole(s))
    && (Fraction(s) != "" ==> Fraction(s)[|Fraction(s)| - 1] != '0')
    && (Negative(s) ==> s != "-0")
  }

  lemma {:induction false} RenderHasNoLeadingZeros(n: nat)
    ensures NoLeadingZeros(Render(n)) && (n > 0 ==> Render(n)[0] != '0')
  {
    if n >= 10 {
      RenderHasNoLeadingZeros(n / 10);
      assert Render(n)[0] == Render(n / 10)[0];
    }
  }

  lemma PrintIsCanonical(n: int, scale: nat)
    ensures Canonical(Print(n, scale))
  {
    PrintParts(n, scale);
    PrintRoundTrip(n, scale);
    RenderHasNoLeadingZeros(Shift(Abs(n), scale));
    if Print(n, scale) == "-0" {
      MinusZero(scale);
    }
  }

  lemma MinusZero(scale: nat)
    ensures IsNumeral("-0") && Read("-0") == Parts(true, "0", "") && Units(Read("-0"), scale) == 0
  {
    var minus, zero := true, "0";
    assert AllDigits(zero) && "-" + zero + Pointed("") == "-0";
    NumeralParts(minus, zero, "");
    ParseZeros(1 + scale);
    ZerosSum(1, scale);
    assert Zeros(1) == zero;
    assert zero + ("" + Zeros(scale)) == Zeros(1 + scale);
  }

  /** Both texts have the same sign, whole part and significant digits. */
  predicate SameShape(m: int, a: nat, n: int, b: nat) {
    Sign(m) == Sign(n) && Shift(Abs(m), a) == Shift(Abs(n), b) && Significant(m, a) == Significant(n, b)
  }

  lemma SameText(m: int, a: nat, n: int, b: nat)
    requires SameShape(m, a, n, b)
    ensures Print(m, a) == Print(n, b)
  {
    PrintShape(m, a);
    PrintShape(n, b);
  }

  lemma ZeroDigitKeepsShape(n: int, scale: nat)
    ensures SameShape(10 * n, scale + 1, n, scale)
  {
    assert Abs(10 * n) / 10 == Abs(n) && Abs(10 * n) % 10 == 0;
    var longer := PadDigits(Abs(10 * n), scale + 1);
    assert longer == PadDigits(Abs(n), scale) + "0";
    assert longer[..|longer| - 1] == PadDigits(Abs(n), scale);
  }

  /** n with k zero digits appended. */
  function Lengthened(n: int, k: nat): int
    decreases k
  {
    if k == 0 then n else Lengthened(10 * n, k - 1)
  }

  lemma {:induction false} LengthenedIsScaled(n: int, k: nat)
    ensures Lengthened(n, k) == n * Pow10(k)
    decreases k
  {
    if k > 0 {
      LengthenedIsScaled(10 * n, k - 1);
      TenfoldFactor(n, Pow10(k - 1));
    }
  }

  lemma TenfoldFactor(x: int, p: int)
    ensures (10 * x) * p == x * (10 * p)
  {
  }

  lemma {:induction false} LengthenedKeepsShape(n: int, scale: nat, k: nat)
    ensures SameShape(Lengthened(n, k), scale + k, n, scale)
    decreases k
  {
    if k > 0 {
      LengthenedKeepsShape(10 * n, scale + 1, k - 1);
      ZeroDigitKeepsShape(n, scale);
    }
  }

  lemma SameNumberSameShape(m: int, a: nat, n: int, b: nat)
    requires Lengthened(m, b) == Lengthened(n, a)
    ensures SameShape(m, a, n, b)
  {
    LengthenedKeepsShape(m, a, b);
    LengthenedKeepsShape(n, b, a);
  }

  lemma SameNumberSameText(m: int, a: nat, n: int, b: nat)
    requires Lengthened(m, b) == Lengthened(n, a)
    ensures Print(m, a) == Print(n, b)
  {
    SameNumberSameShape(m, a, n, b);
    SameText(m, a, n, b);
  }

  lemma ReadAtTwoScales(t: Numeral, a: nat, b: nat)
    requires |t.fraction| <= a && |t.fraction| <= b
    ensures Units(t, a) * Pow10(b) == Units(t, b) * Pow10(a)
  {
    UnitsAtLargerScale(t, a, a + b, b);
    UnitsAtLargerScale(t, b, a + b, a);
  }

  lemma SameTextSameNumber(m: int, a: nat, n: int, b: nat)
    requires Print(m, a) == Print(n, b)
    ensures m * Pow10(b) == n * Pow10(a)
  {
    PrintRoundTrip(m, a);
    PrintRoundTrip(n, b);
    ReadAtTwoScales(Read(Print(m, a)), a, b);
  }

  /** The text stands for the value and for nothing else: two decimals, whatever their scales, have
      one text exactly when they are the same number. */
  lemma PrintIgnoresScale(m: int, a: nat, n: int, b: nat)
    ensures Print(m, a) == Print(n, b) <==> m * Pow10(b) == n * Pow10(a)
  {
    LengthenedIsScaled(m, b);
    LengthenedIsScaled(n, a);
    if Lengthened(m, b) == Lengthened(n, a) {
      SameNumberSameText(m, a, n, b);
    } else if Print(m, a) == Print(n, b) {
      SameTextSameNumber(m, a, n, b);
    }
  }

  lemma {:induction false} RenderOfParse(digits: string)
    requires digits != "" && AllDigits(digits) && NoLeadingZeros(digits)
    ensures Render(Parse(digits)) == digits && (digits[0] != '0' ==> Parse(digits) > 0)
    decreases |digits|
  {
    var front := digits[..|digits| - 1];
    if front != "" {
      RenderOfParse(front);
    }
    assert digits == front + [DigitChar(DigitValue(digits[|digits| - 1]))];
  }

  lemma SplitLast(n: nat, k: nat, front: nat, last: nat)
    requires k > 0 && n == 10 * front + last && last < 10
    ensures Shift(n, k) == Shift(front, k - 1)
    ensures PadDigits(n, k) == PadDigits(front, k - 1) + [DigitChar(last)]
  {
    assert n / 10 == front && n % 10 == last;
  }

  /** The digits of a number put together from two strings. */
  lemma {:induction false} SplitDigits(whole: string, fraction: string)
    requires AllDigits(whole) && AllDigits(fraction)
    ensures Shift(Parse(whole + fraction), |fraction|) == Parse(whole)
    ensures PadDigits(Parse(whole + fraction), |fraction|) == fraction
    decreases |fraction|
  {
    if fraction == "" {
      assert whole + fraction == whole;
    } else {
      var front, last := fraction[..|fraction| - 1], fraction[|fraction| - 1];
      SplitDigits(whole, front);
      assert whole + fraction == (whole + front) + [last] && fraction == front + [last];
      ParseSnoc(whole + front, last);
      assert DigitChar(DigitValue(last)) == last;
      SplitLast(Parse(whole + fraction), |fraction|, Parse(whole + front), DigitValue(last));
    }
  }

  lemma ReassembledBody(s: string)
    requires IsNumeral(s)
    ensures Body(s) == Whole(s) + Pointed(Fraction(s))
  {
    var body := Body(s);
    var i := DotAt(body);
    assert body == body[..i] + body[i..];
  }

  lemma Reassembled(s: string)
    requires IsNumeral(s)
    ensures s == (if Negative(s) then "-" else "") + Whole(s) + Pointed(Fraction(s))
  {
    ReassembledBody(s);
    SignAndBody(s, Whole(s), Pointed(Fraction(s)));
  }

  lemma SignAndBody(s: string, whole: string, rest: string)
    requires Body(s) == whole + rest
    ensures s == (if Negative(s) then "-" else "") + whole + rest
  {
    var sign := if Negative(s) then "-" else "";
    assert s == sign + Body(s);
    assert sign + (whole + rest) == sign + whole + rest;
  }

  /** A canonical text does not carry a sign on zero. */
  lemma CanonicalSign(s: string)
    requires Canonical(s)
    ensures Negative(s) ==> Parse(Whole(s) + Fraction(s)) > 0
  {
    var whole, fraction := Whole(s), Fraction(s);
    if Parse(whole + fraction) == 0 {
      SplitDigits(whole, fraction);
      RenderOfParse(whole);
      ZeroDigits(0, |fraction|);
      ShiftOfZero(|fraction|);
      Reassembled(s);
    }
  }

  lemma {:induction false} ZeroDigits(n: nat, width: nat)
    requires n == 0
    ensures PadDigits(n, width) == Zeros(width)
  {
    if width > 0 {
      ZeroDigits(n / 10, width - 1);
    }
  }

  lemma {:induction false} ShiftOfZero(k: nat)
    ensures Shift(0, k) == 0
  {
    if k > 0 {
      ShiftOfZero(k - 1);
    }
  }

  lemma UnitsOfText(s: string)
    requires Canonical(s)
    ensures var n := Units(Read(s), |Fraction(s)|);
            Abs(n) == Parse(Whole(s) + Fraction(s)) && (n < 0 <==> Negative(s))
  {
    assert Whole(s) + (Fraction(s) + Zeros(0)) == Whole(s) + Fraction(s);
    CanonicalSign(s);
  }

  lemma PrintOfDigits(n: int, whole: string, fraction: string)
    requires whole != "" && AllDigits(whole) && AllDigits(fraction) && Abs(n) == Parse(whole + fraction)
    requires NoLeadingZeros(whole) && (fraction != "" ==> fraction[|fraction| - 1] != '0')
    ensures Print(n, |fraction|) == Sign(n) + whole + Pointed(fraction)
  {
    SplitDigits(whole, fraction);
    RenderOfParse(whole);
    PrintShape(n, |fraction|);
  }

  lemma CanonicalIsPrinted(s: string)
    requires Canonical(s)
    ensures s == Print(Units(Read(s), |Fraction(s)|), |Fraction(s)|)
  {
    var n := Units(Read(s), |Fraction(s)|);
    UnitsOfText(s);
    PrintOfDigits(n, Whole(s), Fraction(s));
    Reassembled(s);
  }

  lemma LengthenedUnits(n: Numeral, scale: nat, larger: nat)
    requires |n.fraction| <= scale <= larger
    ensures Units(n, larger) == Lengthened(Units(n, scale), larger - scale)
  {
    UnitsAtLargerScale(n, scale, larger, larger - scale);
    LengthenedIsScaled(Units(n, scale), larger - scale);
  }

  lemma UnitsKeepShape(n: Numeral, scale: nat, larger: nat)
    requires |n.fraction| <= scale <= larger
    ensures SameShape(Units(n, larger), larger, Units(n, scale), scale)
  {
    LengthenedUnits(n, scale, larger);
    LengthenedKeepsShape(Units(n, scale), scale, larger - scale);
  }

  /** A canonical text is what the service prints, at any scale that holds its fraction. */
  lemma CanonicalIsPrint(s: string, scale: nat)
    requires Canonical(s) && |Fraction(s)| <= scale
    ensures s == Print(Units(Read(s), scale), scale)
  {
    CanonicalIsPrinted(s);
    UnitsKeepShape(Read(s), |Fraction(s)|, scale);
    SameText(Units(Read(s), scale), scale, Units(Read(s), |Fraction(s)|), |Fraction(s)|);
  }

  /** A number has one canonical text. */
  lemma CanonicalIsUnique(s: string, t: string, scale: nat)
    requires Canonical(s) && Canonical(t) && |Fraction(s)| <= scale && |Fraction(t)| <= scale
    ensures s == t <==> Units(Read(s), scale) == Units(Read(t), scale)
  {
    CanonicalIsPrint(s, scale);
    CanonicalIsPrint(t, scale);
  }

  predicate Spells(s: string, negative: bool, whole: string, digits: string) {
    && whole != "" && AllDigits(whole) && AllDigits(digits)
    && s == (if negative then "-" else "") + whole + (if digits == "" then "" else "." + digits)
  }

  /** Which texts the page takes for decimals: an optional minus, digits, and optionally a point with
      digits after it. */
  lemma NumeralIff(s: string)
    ensures IsNumeral(s) <==> exists negative, whole, digits :: Spells(s, negative, whole, digits)
  {
    if IsNumeral(s) {
      Reassembled(s);
      assert Spells(s, Negative(s), Whole(s), Fraction(s));
    }
    if negative, whole, digits :| Spells(s, negative, whole, digits) {
      NumeralParts(negative, whole, digits);
    }
  }

  // ---------------------------------------------------------- sums

  function Sum(ns: seq<int>): int {
    if ns == [] then 0 else Sum(ns[..|ns| - 1]) + ns[|ns| - 1]
  }

  /** What a sum is: nothing for nothing, a number for itself, and additive over parts. */
  lemma {:induction false} SumIsAdditive(a: seq<int>, b: seq<int>, n: int)
    ensures Sum([]) == 0 && Sum([n]) == n && Sum(a + b) == Sum(a) + Sum(b)
    decreases |b|
  {
    assert [n][..0] == [];
    if b == [] {
      assert a + b == a;
    } else {
      var last := |b| - 1;
      assert (a + b)[..|a + b| - 1] == a + b[..last];
      SumIsAdditive(a, b[..last], n);
    }
  }

  predicate AllNumerals(items: seq<string>) {
    forall i | 0 <= i < |items| :: IsNumeral(items[i])
  }

  function ReadAll(items: seq<string>): (ns: seq<Numeral>)
    requires AllNumerals(items)
    ensures |ns| == |items| && forall i | 0 <= i < |items| :: ns[i] == Read(items[i])
  {
    seq(|items|, i requires 0 <= i < |items| => Read(items[i]))
  }

  function MaxOf(ns: seq<nat>): (m: nat)
    ensures forall i | 0 <= i < |ns| :: ns[i] <= m
    ensures m > 0 ==> m in ns
  {
    if ns == [] then 0
    else
      var rest, last := MaxOf(ns[..|ns| - 1]), ns[|ns| - 1];
      if rest < last then last else rest
  }

  predicate Fits(ns: seq<Numeral>, scale: nat) {
    forall i | 0 <= i < |ns| :: |ns[i].fraction| <= scale
  }

  /** The scale of the longest fraction. */
  function CommonScale(ns: seq<Numeral>): (scale: nat)
    ensures Fits(ns, scale)
  {
    var lengths := seq(|ns|, i requires 0 <= i < |ns| => |ns[i].fraction|);
    assert forall i | 0 <= i < |ns| :: lengths[i] == |ns[i].fraction|;
    MaxOf(lengths)
  }

  lemma CommonScaleIsLeast(ns: seq<Numeral>, scale: nat)
    requires Fits(ns, scale)
    ensures CommonScale(ns) <= scale
  {
  }

  function UnitsOfAll(ns: seq<Numeral>, scale: nat): (units: seq<int>)
    requires Fits(ns, scale)
    ensures |units| == |ns| && forall i | 0 <= i < |ns| :: units[i] == Units(ns[i], scale)
  {
    seq(|ns|, i requires 0 <= i < |ns| => Units(ns[i], scale))
  }

  /** At this scale, all numerals but the last sum to the last. */
  predicate AddsUp(ns: seq<Numeral>, scale: nat)
    requires ns != [] && Fits(ns, scale)
  {
    var units := UnitsOfAll(ns, scale);
    Sum(units[..|ns| - 1]) == units[|ns| - 1]
  }

  /** The page's check that the slices of a metric add up to it: every text is a numeral, and the
      sum is compared at the scale of the longest fraction. */
  predicate Reconciles(items: seq<string>, total: string) {
    var texts := items + [total];
    AllNumerals(texts) && AddsUp(ReadAll(texts), CommonScale(ReadAll(texts)))
  }

  lemma {:induction false} ScaleSum(xs: seq<int>, ys: seq<int>, p: int)
    requires |xs| == |ys| && forall i | 0 <= i < |xs| :: ys[i] == xs[i] * p
    ensures Sum(ys) == Sum(xs) * p
    decreases |xs|
  {
    if xs != [] {
      var n := |xs| - 1;
      ScaleSum(xs[..n], ys[..n], p);
      AddScaled(Sum(xs[..n]), xs[n], p);
    }
  }

  lemma AddScaled(x: int, y: int, p: int)
    ensures x * p + y * p == (x + y) * p
  {
  }

  lemma {:induction false} CancelScale(x: int, y: int, k: nat)
    ensures x * Pow10(k) == y * Pow10(k) <==> x == y
  {
    if k > 0 {
      CancelScale(x, y, k - 1);
      Distribute(x, Pow10(k - 1));
      Distribute(y, Pow10(k - 1));
    }
  }

  lemma ScaledEquality(x: int, y: int, scaledX: int, scaledY: int, k: nat)
    requires scaledX == x * Pow10(k) && scaledY == y * Pow10(k)
    ensures x == y <==> scaledX == scaledY
  {
    CancelScale(x, y, k);
  }

  lemma AddsUpAtLargerScale(ns: seq<Numeral>, scale: nat, larger: nat)
    requires ns != [] && Fits(ns, scale) && scale <= larger
    ensures Fits(ns, larger)
    ensures AddsUp(ns, scale) <==> AddsUp(ns, larger)
  {
    var xs, ys, last, more := UnitsOfAll(ns, scale), UnitsOfAll(ns, larger), |ns| - 1, larger - scale;
    forall i | 0 <= i < |ns| ensures ys[i] == xs[i] * Pow10(more) {
      UnitsAtLargerScale(ns[i], scale, larger, more);
    }
    ScaleSum(xs[..last], ys[..last], Pow10(more));
    ScaledEquality(Sum(xs[..last]), xs[last], Sum(ys[..last]), ys[last], more);
  }

  /** The check is exact: it holds precisely when the decimals add up, at whatever scale they are
      compared. */
  lemma ReconcilesIffExact(items: seq<string>, total: string, scale: nat)
    requires AllNumerals(items + [total]) && Fits(ReadAll(items + [total]), scale)
    ensures Reconciles(items, total) <==> AddsUp(ReadAll(items + [total]), scale)
  {
    var ns := ReadAll(items + [total]);
    CommonScaleIsLeast(ns, scale);
    AddsUpAtLargerScale(ns, CommonScale(ns), scale);
  }

  /** A text that is no decimal never reconciles, as a slice or as the total. */
  lemma OnlyNumeralsReconcile(items: seq<string>, total: string)
    ensures Reconciles(items, total) ==> IsNumeral(total) && forall i | 0 <= i < |items| :: IsNumeral(items[i])
  {
    var texts := items + [total];
    assert texts[|items|] == total;
    assert forall i | 0 <= i < |items| :: texts[i] == items[i];
  }

  function PrintAll(ns: seq<int>, scale: nat): (texts: seq<string>)
    ensures |texts| == |ns| && forall i | 0 <= i < |ns| :: texts[i] == Print(ns[i], scale)
  {
    seq(|ns|, i requires 0 <= i < |ns| => Print(ns[i], scale))
  }

  lemma AddsUpMeans(numerals: seq<Numeral>, scale: nat, ns: seq<int>, total: int)
    requires Fits(numerals, scale) && |numerals| == |ns| + 1
    requires forall i | 0 <= i < |ns| :: Units(numerals[i], scale) == ns[i]
    requires Units(numerals[|ns|], scale) == total
    ensures AddsUp(numerals, scale) <==> Sum(ns) == total
  {
    assert UnitsOfAll(numerals, scale)[..|ns|] == ns;
  }

  lemma PrintedTexts(ns: seq<int>, scale: nat)
    ensures var texts := PrintAll(ns, scale);
            && AllNumerals(texts) && Fits(ReadAll(texts), scale)
            && forall i | 0 <= i < |ns| :: Units(ReadAll(texts)[i], scale) == ns[i]
  {
    forall i | 0 <= i < |ns|
      ensures IsNumeral(Print(ns[i], scale)) && |Fraction(Print(ns[i], scale))| <= scale
      ensures Units(Read(Print(ns[i], scale)), scale) == ns[i]
    {
      PrintRoundTrip(ns[i], scale);
    }
  }

  /** Printed numbers reconcile exactly when the numbers add up. */
  lemma PrintedReconcilesIff(ns: seq<int>, total: int, scale: nat)
    ensures Reconciles(PrintAll(ns, scale), Print(total, scale)) <==> Sum(ns) == total
  {
    var texts := PrintAll(ns + [total], scale);
    assert PrintAll(ns, scale) + [Print(total, scale)] == texts;
    PrintedTexts(ns + [total], scale);
    ReconcilesIffExact(PrintAll(ns, scale), Print(total, scale), scale);
    AddsUpMeans(ReadAll(texts), scale, ns, total);
  }
}
