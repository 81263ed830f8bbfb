/** The canonical rendering of decimals, and decimal digits in general. */
module Decimals {
  import opened Wrappers

  // ----- digits -----------------------------------------------------------------------------------

  type Digit = d: nat | d < 10

  function DigitChar(d: Digit): char {
    '0' + d as char
  }

  predicate IsDigit(c: char) {
    '0' <= c <= '9'
  }

  function DigitOf(c: char): Digit
    requires IsDigit(c)
  {
    c as int - '0' as int
  }

  function Chars(digits: seq<Digit>): (text: string)
    ensures |text| == |digits|
  {
    seq(|digits|, i requires 0 <= i < |digits| => DigitChar(digits[i]))
  }

  predicate AllDigits(text: string) {
    forall i | 0 <= i < |text| :: IsDigit(text[i])
  }

  function DigitsOf(text: string): (digits: seq<Digit>)
    requires AllDigits(text)
    ensures |digits| == |text|
  {
    seq(|text|, i requires 0 <= i < |text| => DigitOf(text[i]))
  }

  lemma DigitsOfChars(digits: seq<Digit>)
    ensures AllDigits(Chars(digits)) && DigitsOf(Chars(digits)) == digits
  {}

  lemma CharsConcat(a: seq<Digit>, b: seq<Digit>)
    ensures Chars(a + b) == Chars(a) + Chars(b)
  {}

  /** Positional notation, most significant digit first. */
  function Coefficient(digits: seq<Digit>): nat {
    if digits == [] then 0
    else 10 * Coefficient(digits[..|digits| - 1]) + digits[|digits| - 1]
  }

  /** `n` with `k` zeros appended. */
  function Shift(n: int, k: nat): int {
    if k == 0 then n else 10 * Shift(n, k - 1)
  }

  function Zeros(n: nat): seq<Digit> {
    seq(n, _ => 0)
  }

  lemma {:induction false} CoefficientConcat(a: seq<Digit>, b: seq<Digit>)
    ensures Coefficient(a + b) == Shift(Coefficient(a), |b|) + Coefficient(b)
  {
    if b == [] {
      assert a + b == a;
    } else {
      var n := |b| - 1;
      assert (a + b)[..|a + b| - 1] == a + b[..n];
      CoefficientConcat(a, b[..n]);
    }
  }

  lemma {:induction false} CoefficientOfZeros(n: nat)
    ensures Coefficient(Zeros(n)) == 0
  {
    if n > 0 {
      assert Zeros(n)[..n - 1] == Zeros(n - 1);
      CoefficientOfZeros(n - 1);
    }
  }

  /** Digits without leading zeros, the empty list for zero. */
  predicate NoLeadingZero(digits: seq<Digit>) {
    digits != [] ==> digits[0] != 0
  }

  lemma {:induction false} LeadingDigitCounts(digits: seq<Digit>)
    requires digits != [] && digits[0] != 0
    ensures Coefficient(digits) > 0
  {
    if |digits| > 1 {
      LeadingDigitCounts(digits[..|digits| - 1]);
    }
  }

  /** Positional notation without leading zeros is unique. */
  lemma {:induction false} CoefficientIsInjective(a: seq<Digit>, b: seq<Digit>)
    requires NoLeadingZero(a) && NoLeadingZero(b) && Coefficient(a) == Coefficient(b)
    ensures a == b
  {
    if a == [] || b == [] {
      if a != [] { LeadingDigitCounts(a); }
      if b != [] { LeadingDigitCounts(b); }
    } else {
      var m, n := |a| - 1, |b| - 1;
      CoefficientIsInjective(a[..m], b[..n]);
      assert a == a[..m] + [a[m]] && b == b[..n] + [b[n]];
    }
  }

  // ----- values -----------------------------------------------------------------------------------

  /** The exact number `n` times ten to the power `e`. */
  datatype Number = Number(n: int, e: int)

  /** Numeric equality: equal after alignment to the smaller exponent. */
  predicate Equal(x: Number, y: Number) {
    if x.e <= y.e then x.n == Shift(y.n, y.e - x.e) else Shift(x.n, x.e - y.e) == y.n
  }

  lemma {:induction false} ShiftTwice(n: int, j: nat, k: nat)
    ensures Shift(Shift(n, j), k) == Shift(n, j + k)
  {
    if k > 0 {
      ShiftTwice(n, j, k - 1);
    }
  }

  lemma {:induction false} ShiftIsInjective(m: int, n: int, k: nat)
    requires Shift(m, k) == Shift(n, k)
    ensures m == n
  {
    if k > 0 {
      ShiftIsInjective(m, n, k - 1);
    }
  }

  lemma {:induction false} ShiftKeepsSign(n: int, k: nat)
    ensures Shift(-n, k) == -Shift(n, k)
    ensures (n > 0 ==> Shift(n, k) > 0) && (n == 0 ==> Shift(n, k) == 0)
  {
    if k > 0 {
      ShiftKeepsSign(n, k - 1);
    }
  }

  /** Equality in terms of any exponent not above both. */
  lemma EqualAt(x: Number, y: Number, e: int)
    requires e <= x.e && e <= y.e
    ensures Equal(x, y) <==> Shift(x.n, x.e - e) == Shift(y.n, y.e - e)
  {
    var low := if x.e <= y.e then x.e else y.e;
    ShiftTwice(x.n, x.e - low, low - e);
    ShiftTwice(y.n, y.e - low, low - e);
    if Shift(x.n, x.e - e) == Shift(y.n, y.e - e) {
      ShiftIsInjective(Shift(x.n, x.e - low), Shift(y.n, y.e - low), low - e);
    }
  }

  lemma EqualIsEquivalence(x: Number, y: Number, z: Number)
    ensures Equal(x, x)
    ensures Equal(x, y) ==> Equal(y, x)
    ensures Equal(x, y) && Equal(y, z) ==> Equal(x, z)
  {
    var e := if x.e <= y.e && x.e <= z.e then x.e else if y.e <= z.e then y.e else z.e;
    EqualAt(x, y, e);
    EqualAt(y, z, e);
    EqualAt(x, z, e);
    EqualAt(y, x, e);
  }

  /** A decimal as `Decimal.as_tuple` gives it. */
  datatype Decimal = Finite(negative: bool, digits: seq<Digit>, exponent: int) | NotFinite

  /** Python keeps no leading zeros; zero is the one digit 0. */
  predicate Kept(d: Decimal) {
    d.Finite? ==> d.digits != [] && (d.digits[0] == 0 ==> d.digits == [0])
  }

  function Negated(x: Number): Number {
    Number(-x.n, x.e)
  }

  function Value(d: Decimal): Number
    requires d.Finite?
  {
    var x := Number(Coefficient(d.digits), d.exponent);
    if d.negative then Negated(x) else x
  }

  // ----- rendering --------------------------------------------------------------------------------

  /** Trailing zeros moved into the exponent. */
  function Stripped(digits: seq<Digit>, exponent: int): (seq<Digit>, int) {
    if digits != [] && digits[|digits| - 1] == 0 then
      Stripped(digits[..|digits| - 1], exponent + 1)
    else (digits, exponent)
  }

  function Spread(digits: seq<Digit>, exponent: int): string {
    var point := |digits| + exponent;
    if exponent >= 0 then Chars(digits) + Chars(Zeros(exponent))
    else if point <= 0 then "0." + Chars(Zeros(-point)) + Chars(digits)
    else Chars(digits)[..point] + "." + Chars(digits)[point..]
  }

  function Rendered(d: Decimal): Result<string> {
    if d.NotFinite? then Failure(ValidationError)
    else
      var (digits, exponent) := Stripped(d.digits, d.exponent);
      if digits == [] then Success("0")
      else Success(if d.negative then "-" + Spread(digits, exponent) else Spread(digits, exponent))
  }

  method RenderDecimal(d: Decimal) returns (r: Result<string>)
    ensures r == Rendered(d)
  {
    if d.NotFinite? {
      return Failure(ValidationError);
    }
    hide Chars, Zeros;
    var digits, exponent := d.digits, d.exponent;
    while digits != [] && digits[|digits| - 1] == 0
      invariant Stripped(digits, exponent) == Stripped(d.digits, d.exponent)
    {
      digits := digits[..|digits| - 1];
      exponent := exponent + 1;
    }
    if digits == [] {
      return Success("0");
    }
    var coefficient := Chars(digits);
    var rendered: string;
    if exponent >= 0 {
      rendered := coefficient + Chars(Zeros(exponent));
    } else {
      var point := |coefficient| + exponent;
      rendered := if point <= 0 then "0." + Chars(Zeros(-point)) + coefficient
                  else coefficient[..point] + "." + coefficient[point..];
    }
    return Success(if d.negative then "-" + rendered else rendered);
  }

  // ----- reading back -----------------------------------------------------------------------------

  /** The position of the first point, or the length. */
  function PointIn(text: string): (n: nat)
    ensures n <= |text|
    ensures n < |text| ==> text[n] == '.'
    ensures forall i | 0 <= i < n :: text[i] != '.'
  {
    if text == "" || text[0] == '.' then 0 else 1 + PointIn(text[1..])
  }

  /** `digits` or `digits.digits`, with at least one digit on either side. */
  function ParseUnsigned(text: string): Option<Number> {
    var n := PointIn(text);
    var whole := text[..n];
    var part := if n < |text| then text[n + 1..] else "";
    if whole != "" && (n < |text| ==> part != "") && AllDigits(whole) && AllDigits(part) then
      Some(Number(Coefficient(DigitsOf(whole) + DigitsOf(part)), -|part|))
    else None
  }

  function ParseDecimal(text: string): Option<Number> {
    if text != "" && text[0] == '-' then
      var r := ParseUnsigned(text[1..]);
      if r.Some? then Some(Negated(r.value)) else None
    else ParseUnsigned(text)
  }

  lemma {:induction false} StripMovesZeros(digits: seq<Digit>, exponent: int)
    ensures var (d, e) := Stripped(digits, exponent);
            && |d| <= |digits| && d == digits[..|d|] && e == exponent + |digits| - |d|
            && Coefficient(digits) == Shift(Coefficient(d), |digits| - |d|)
            && (d != [] ==> d[|d| - 1] != 0)
    decreases |digits|
  {
    if digits != [] && digits[|digits| - 1] == 0 {
      StripMovesZeros(digits[..|digits| - 1], exponent + 1);
    }
  }

  lemma NoPoint(text: string)
    requires AllDigits(text)
    ensures PointIn(text) == |text|
  {}

  lemma {:induction false} PointBetween(whole: string, part: string)
    requires AllDigits(whole)
    ensures PointIn(whole + "." + part) == |whole|
  {
    if whole == "" {
      assert (whole + "." + part)[0] == '.';
    } else {
      PointBetween(whole[1..], part);
      assert (whole + "." + part)[1..] == whole[1..] + "." + part;
    }
  }

  lemma ParsePlain(digits: seq<Digit>)
    requires digits != []
    ensures ParseUnsigned(Chars(digits)) == Some(Number(Coefficient(digits), 0))
  {
    DigitsOfChars(digits);
    NoPoint(Chars(digits));
    assert Chars(digits)[..|digits|] == Chars(digits);
    hide Chars, DigitsOf, PointIn;
    assert DigitsOf(Chars(digits)) + DigitsOf("") == digits;
  }

  lemma ParsePointed(whole: seq<Digit>, part: seq<Digit>)
    requires whole != [] && part != []
    ensures ParseUnsigned(Chars(whole) + "." + Chars(part)) ==
            Some(Number(Coefficient(whole + part), -|part|))
  {
    var text := Chars(whole) + "." + Chars(part);
    DigitsOfChars(whole);
    DigitsOfChars(part);
    PointBetween(Chars(whole), Chars(part));
    PointSplits(Chars(whole), Chars(part));
    hide Chars, DigitsOf, PointIn, Coefficient, AllDigits;
  }

  /** A spread digit list reads back as its value. */
  lemma ParseSpread(digits: seq<Digit>, exponent: int)
    requires digits != []
    ensures var r := ParseUnsigned(Spread(digits, exponent));
            r.Some? && Equal(r.value, Number(Coefficient(digits), exponent))
  {
    hide Chars, ParseUnsigned, Coefficient;
    var point := |digits| + exponent;
    if exponent >= 0 {
      CharsConcat(digits, Zeros(exponent));
      ParsePlain(digits + Zeros(exponent));
      CoefficientConcat(digits, Zeros(exponent));
      CoefficientOfZeros(exponent);
    } else if point <= 0 {
      ParseSmall(digits, -point, Zeros(-point) + digits);
      SmallSpread(digits, exponent);
    } else {
      var whole, part := digits[..point], digits[point..];
      assert whole + part == digits;
      CharsConcat(whole, part);
      assert Chars(digits)[..point] == Chars(whole) && Chars(digits)[point..] == Chars(part);
      ParsePointed(whole, part);
    }
  }

  lemma ParseSmall(digits: seq<Digit>, zeros: nat, part: seq<Digit>)
    requires digits != [] && part == Zeros(zeros) + digits && |part| == zeros + |digits|
    ensures ParseUnsigned(Chars([0]) + "." + Chars(part)) ==
            Some(Number(Coefficient(digits), -(zeros + |digits|)))
  {
    hide *;
    ParsePointed([0], part);
    assert Coefficient([0] + part) == Coefficient(digits) by {
      ZeroBefore(zeros, digits);
      LeadingZerosAddNothing(1 + zeros, digits);
    }
  }

  lemma SmallSpread(digits: seq<Digit>, exponent: int)
    requires exponent < 0 && |digits| + exponent <= 0
    ensures Spread(digits, exponent) ==
            Chars([0]) + "." + Chars(Zeros(-(|digits| + exponent)) + digits)
  {
    var zeros := -(|digits| + exponent);
    CharsConcat(Zeros(zeros), digits);
    ZeroChar();
    PointMoves(Chars(Zeros(zeros)), Chars(digits));
    hide Chars, Zeros;
  }

  lemma PointMoves(a: string, b: string)
    ensures "0." + a + b == "0" + "." + (a + b)
  {}

  lemma PointSplits(a: string, b: string)
    ensures (a + "." + b)[..|a|] == a && (a + "." + b)[|a| + 1..] == b
  {}

  lemma ZeroChar()
    ensures Chars([0]) == "0"
  {}

  lemma ZeroBefore(zeros: nat, digits: seq<Digit>)
    ensures [0] + (Zeros(zeros) + digits) == Zeros(1 + zeros) + digits
  {}

  lemma LeadingZerosAddNothing(zeros: nat, digits: seq<Digit>)
    ensures Coefficient(Zeros(zeros) + digits) == Coefficient(digits)
  {
    CoefficientConcat(Zeros(zeros), digits);
    CoefficientOfZeros(zeros);
    ShiftKeepsSign(0, |digits|);
  }

  lemma SpreadHasNoSign(digits: seq<Digit>, exponent: int)
    requires digits != []
    ensures Spread(digits, exponent) != "" && Spread(digits, exponent)[0] != '-'
  {}

  /** The rendered text of a finite decimal reads back as exactly its value. */
  lemma RenderedParsesBack(d: Decimal)
    requires d.Finite?
    ensures Rendered(d).Success?
    ensures var r := ParseDecimal(Rendered(d).value);
            r.Some? && Equal(r.value, Value(d))
  {
    var (digits, exponent) := Stripped(d.digits, d.exponent);
    StripMovesZeros(d.digits, d.exponent);
    var stripped := Number(Coefficient(digits), exponent);
    var whole := Number(Coefficient(d.digits), d.exponent);
    assert Equal(stripped, whole);
    if digits == [] {
      assert Coefficient(d.digits) == 0 by { ShiftKeepsSign(0, |d.digits|); }
      hide ParseUnsigned, Equal, Coefficient, Stripped;
      ZeroParses();
      ZeroIsZero(d.exponent);
    } else {
      hide ParseUnsigned, Stripped, Coefficient, Equal;
      ParseSpread(digits, exponent);
      SpreadHasNoSign(digits, exponent);
      hide Spread;
      ReadBack(d.negative, Spread(digits, exponent), stripped, whole);
    }
  }

  lemma ReadBack(negative: bool, body: string, stripped: Number, whole: Number)
    requires body != "" && body[0] != '-' && ParseUnsigned(body).Some?
    requires Equal(ParseUnsigned(body).value, stripped) && Equal(stripped, whole)
    ensures var r := ParseDecimal(if negative then "-" + body else body);
            r.Some? && Equal(r.value, if negative then Negated(whole) else whole)
  {
    hide ParseUnsigned, Equal;
    assert ("-" + body)[1..] == body;
    var read := ParseUnsigned(body).value;
    EqualIsEquivalence(read, stripped, whole);
    NegatedEqual(read, whole);
  }

  lemma ZeroParses()
    ensures ParseUnsigned("0") == Some(Number(0, 0))
  {
    ZeroChar();
    ParsePlain([0]);
  }

  lemma ZeroIsZero(e: int)
    ensures Equal(Number(0, 0), Number(0, e))
  {
    ShiftKeepsSign(0, if e >= 0 then e else -e);
  }

  lemma NegatedEqual(x: Number, y: Number)
    requires Equal(x, y)
    ensures Equal(Negated(x), Negated(y))
  {
    if x.e <= y.e {
      ShiftKeepsSign(y.n, y.e - x.e);
    } else {
      ShiftKeepsSign(x.n, x.e - y.e);
    }
  }

  /** Digit lists that neither start nor end with a zero are determined by the value. */
  lemma StrippedIsUnique(a: seq<Digit>, i: int, b: seq<Digit>, j: int)
    requires a != [] && a[0] != 0 && a[|a| - 1] != 0
    requires b != [] && b[0] != 0 && b[|b| - 1] != 0
    requires Equal(Number(Coefficient(a), i), Number(Coefficient(b), j))
    ensures a == b && i == j
  {
    LastDigitIsRemainder(a);
    LastDigitIsRemainder(b);
    ShiftEndsInZero(Coefficient(b), j - i);
    ShiftEndsInZero(Coefficient(a), i - j);
    CoefficientIsInjective(a, b);
  }

  lemma ShiftEndsInZero(n: int, k: int)
    ensures k > 0 ==> Shift(n, k) % 10 == 0
  {}

  lemma LastDigitIsRemainder(a: seq<Digit>)
    requires a != []
    ensures Coefficient(a) % 10 == a[|a| - 1]
  {}

  /** Two finite decimals, as Python keeps them, render alike exactly when they are numerically
      equal; the two zeros are equal. */
  lemma RendersAlikeIffEqual(d: Decimal, f: Decimal)
    requires d.Finite? && f.Finite? && Kept(d) && Kept(f)
    ensures Rendered(d) == Rendered(f) <==> Equal(Value(d), Value(f))
  {
    hide Rendered, Equal, ParseDecimal, Value;
    RenderedParsesBack(d);
    RenderedParsesBack(f);
    if Rendered(d) == Rendered(f) {
      var read := ParseDecimal(Rendered(d).value).value;
      EqualIsEquivalence(read, Value(d), Value(f));
      EqualIsEquivalence(Value(d), read, Value(f));
    }
    if Equal(Value(d), Value(f)) {
      EqualRenderAlike(d, f);
    }
  }

  /** The value in terms of the stripped digits. */
  function StrippedValue(d: Decimal): Number
    requires d.Finite?
  {
    var (digits, exponent) := Stripped(d.digits, d.exponent);
    var x := Number(Coefficient(digits), exponent);
    if d.negative then Negated(x) else x
  }

  lemma StrippedValueIsValue(d: Decimal)
    requires d.Finite? && Kept(d)
    ensures Equal(StrippedValue(d), Value(d))
    ensures var a := Stripped(d.digits, d.exponent).0;
            && (a == [] ==> StrippedValue(d).n == 0)
            && (a != [] ==>
                  && a[0] != 0 && a[|a| - 1] != 0
                  && (if d.negative then StrippedValue(d).n < 0 else StrippedValue(d).n > 0))
  {
    var (a, i) := Stripped(d.digits, d.exponent);
    StripMovesZeros(d.digits, d.exponent);
    NegatedEqual(Number(Coefficient(a), i), Number(Coefficient(d.digits), d.exponent));
    if a != [] {
      assert a[0] == d.digits[0];
      assert d.digits == [0] ==> a == [];
      LeadingDigitCounts(a);
    }
  }

  lemma EqualSign(x: Number, y: Number)
    requires Equal(x, y)
    ensures (x.n > 0 <==> y.n > 0) && (x.n < 0 <==> y.n < 0)
  {
    ShiftKeepsSign(x.n, if x.e > y.e then x.e - y.e else 0);
    ShiftKeepsSign(-x.n, if x.e > y.e then x.e - y.e else 0);
    ShiftKeepsSign(y.n, if y.e > x.e then y.e - x.e else 0);
    ShiftKeepsSign(-y.n, if y.e > x.e then y.e - x.e else 0);
  }

  lemma EqualRenderAlike(d: Decimal, f: Decimal)
    requires d.Finite? && f.Finite? && Kept(d) && Kept(f) && Equal(Value(d), Value(f))
    ensures Rendered(d) == Rendered(f)
  {
    var (a, i) := Stripped(d.digits, d.exponent);
    var (b, j) := Stripped(f.digits, f.exponent);
    var x, y := StrippedValue(d), StrippedValue(f);
    StrippedValueIsValue(d);
    StrippedValueIsValue(f);
    EqualIsEquivalence(x, Value(d), Value(f));
    EqualIsEquivalence(y, Value(f), x);
    EqualIsEquivalence(x, Value(f), y);
    EqualSign(x, y);
    NegatedEqual(x, y);
    hide Stripped, Equal, Value, Coefficient;
    if a != [] {
      StrippedIsUnique(a, i, b, j);
    }
  }

  // ----- no zero too many -------------------------------------------------------------------------

  /** No leading zero but one before the point, no trailing zero behind it. */
  predicate PlainUnsigned(text: string) {
    var n := PointIn(text);
    && 0 < n && (text[0] == '0' ==> n == 1)
    && (n < |text| ==> text[|text| - 1] != '0' && text[|text| - 1] != '.')
  }

  /** The shortest way to write a number without an exponent; zero has no sign. */
  predicate Plain(text: string) {
    if text != "" && text[0] == '-' then PlainUnsigned(text[1..]) && text != "-0" else PlainUnsigned(text)
  }

  lemma SpreadIsPlain(digits: seq<Digit>, exponent: int)
    requires digits != [] && digits[0] != 0 && digits[|digits| - 1] != 0
    ensures PlainUnsigned(Spread(digits, exponent)) && Spread(digits, exponent) != "0"
  {
    hide PointIn, Coefficient;
    DigitsOfChars(digits);
    assert Chars(digits)[0] == DigitChar(digits[0]) && Chars(digits)[0] != '0';
    assert Chars(digits)[|digits| - 1] == DigitChar(digits[|digits| - 1]);
    var point := |digits| + exponent;
    if exponent >= 0 {
      DigitsOfChars(Zeros(exponent));
      NoPoint(Chars(digits) + Chars(Zeros(exponent)));
    } else if point <= 0 {
      PointMoves(Chars(Zeros(-point)), Chars(digits));
      PointBetween("0", Chars(Zeros(-point)) + Chars(digits));
    } else {
      PointBetween(Chars(digits)[..point], Chars(digits)[point..]);
    }
  }

  /** The rendered text of a decimal as Python keeps it has no zero too many. */
  lemma RenderedIsPlain(d: Decimal)
    requires d.Finite? && Kept(d)
    ensures Rendered(d).Success? && Plain(Rendered(d).value)
  {
    var (digits, exponent) := Stripped(d.digits, d.exponent);
    StripMovesZeros(d.digits, d.exponent);
    if digits == [] {
      assert PointIn("0") == 1 by { NoPoint("0"); }
    } else {
      assert digits[0] == d.digits[0] && digits[0] != 0;
      SpreadIsPlain(digits, exponent);
      SpreadHasNoSign(digits, exponent);
      hide Spread, Stripped, PlainUnsigned;
      var text := Spread(digits, exponent);
      assert ("-" + text)[1..] == text;
    }
  }
}
