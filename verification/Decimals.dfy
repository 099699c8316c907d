/** Finite decimals, their canonical text, and the parser of plain decimal text. */
module Decimals {
  import opened Results
  import opened Texts

  /** Sign, digits and exponent: several representations share one value. */
  datatype Decimal = Decimal(negative: bool, coefficient: nat, exponent: int)

  /** Ten to the power e. */
  function Scale(e: int): (s: real)
    ensures s > 0.0
    decreases if e < 0 then -e else e
  {
    if e == 0 then 1.0 else if e > 0 then 10.0 * Scale(e - 1) else Scale(e + 1) / 10.0
  }

  function Signed(d: Decimal): int {
    var n: int := d.coefficient;
    if d.negative then -n else n
  }

  function Times(n: int, s: real): real {
    n as real * s
  }

  function Value(d: Decimal): real {
    Times(Signed(d), Scale(d.exponent))
  }

  // ---------- digits ----------

  predicate IsDigit(c: char) {
    '0' <= c <= '9'
  }

  predicate AllDigits(s: string) {
    forall k | 0 <= k < |s| :: IsDigit(s[k])
  }

  function DigitOf(n: nat): (c: char)
    requires n < 10
    ensures IsDigit(c) && c as int == '0' as int + n
  {
    ('0' as int + n) as char
  }

  function Digits(n: nat): (s: string)
    ensures s != "" && AllDigits(s)
  {
    if n < 10 then [DigitOf(n)] else Digits(n / 10) + [DigitOf(n % 10)]
  }

  function NatOf(s: string): nat
    requires AllDigits(s)
  {
    if s == "" then 0 else NatOf(s[..|s| - 1]) * 10 + (s[|s| - 1] as int - '0' as int)
  }

  /** Reading what was written. */
  lemma {:induction false} NatOfDigits(n: nat)
    ensures NatOf(Digits(n)) == n
  {
    if n >= 10 {
      NatOfDigits(n / 10);
      var s := Digits(n);
      assert s[..|s| - 1] == Digits(n / 10);
    } else {
      assert Digits(n)[..0] == "";
    }
  }

  lemma TenTimesDigits(n: nat)
    requires n > 0
    ensures Digits(10 * n) == Digits(n) + "0"
  {
    assert 10 * n / 10 == n && 10 * n % 10 == 0;
  }

  function Zeros(k: nat): (s: string)
    ensures |s| == k && AllDigits(s) && forall i | 0 <= i < k :: s[i] == '0'
  {
    seq(k, _ => '0')
  }

  lemma {:induction false} LeadingZeros(k: nat, s: string)
    requires AllDigits(s)
    ensures AllDigits(Zeros(k) + s) && NatOf(Zeros(k) + s) == NatOf(s)
  {
    var t := Zeros(k) + s;
    if s == "" {
      if k > 0 {
        assert t[..|t| - 1] == Zeros(k - 1) + "";
        LeadingZeros(k - 1, "");
      }
    } else {
      assert t[..|t| - 1] == Zeros(k) + s[..|s| - 1];
      LeadingZeros(k, s[..|s| - 1]);
    }
  }

  // ---------- canonical text ----------

  function RStrip(text: string, c: char): string {
    if text != "" && text[|text| - 1] == c then RStrip(text[..|text| - 1], c) else text
  }

  /** The digits padded so that k of them can follow the point. */
  function Padded(n: nat, k: nat): (s: string)
    ensures |s| > k && AllDigits(s)
  {
    var digits := Digits(n);
    Zeros(if |digits| <= k then k + 1 - |digits| else 0) + digits
  }

  /** The text with a point before its last k characters. */
  function Pointed(s: string, k: nat): string
    requires k < |s|
  {
    s[..|s| - k] + "." + s[|s| - k..]
  }

  function Unsigned(n: nat, e: int): string {
    if e >= 0 then Digits(n) + Zeros(e) else Pointed(Padded(n, -e), -e)
  }

  function Sign(negative: bool): string {
    if negative then "-" else ""
  }

  /** Fixed-point rendering of every digit. */
  function FixedPoint(d: Decimal): string {
    Sign(d.negative) + Unsigned(d.coefficient, d.exponent)
  }

  /** Trailing zeros after a point, and then the point itself, are dropped. */
  function Stripped(text: string): string {
    if '.' in text then RStrip(RStrip(text, '0'), '.') else text
  }

  function FormatCanonical(d: Decimal): string {
    if d.coefficient == 0 then "0"
    else
      var text := Stripped(FixedPoint(d));
      if text == "" then "0" else text
  }

  // ---------- one representation and the next ----------

  /** The same value with one more digit. */
  function Finer(d: Decimal): Decimal {
    Decimal(d.negative, 10 * d.coefficient, d.exponent - 1)
  }

  lemma FinerIsSameValue(d: Decimal)
    ensures Value(Finer(d)) == Value(d)
  {
  }

  lemma Associates(a: string, b: string, c: string)
    ensures a + (b + c) == a + b + c
  {
  }

  lemma FinerWhole(n: nat, e: int)
    requires n > 0 && e > 0
    ensures Unsigned(10 * n, e - 1) == Unsigned(n, e)
  {
  }

  lemma FinerUnit(n: nat)
    requires n > 0
    ensures Unsigned(10 * n, -1) == Unsigned(n, 0) + ("." + "0")
  {
    TenTimesDigits(n);
    PointUnit(Digits(n));
    assert Padded(10 * n, 1) == Digits(n) + "0";
    assert Unsigned(n, 0) == Digits(n);
  }

  lemma PointUnit(s: string)
    requires s != ""
    ensures Pointed(s + "0", 1) == s + ("." + "0")
  {
  }

  lemma FinerFraction(n: nat, e: int)
    requires n > 0 && e < 0
    ensures Unsigned(10 * n, e - 1) == Unsigned(n, e) + "0"
  {
    hide Pointed, Padded;
    FinerPadding(n, -e);
    PointGrows(Padded(n, -e), -e);
  }

  lemma FinerPadding(n: nat, k: nat)
    requires n > 0
    ensures Padded(10 * n, k + 1) == Padded(n, k) + "0"
  {
    hide Digits;
    TenTimesDigits(n);
  }

  lemma PointGrows(s: string, k: nat)
    requires k < |s|
    ensures Pointed(s + "0", k + 1) == Pointed(s, k) + "0"
  {
  }

  lemma FinerFixedPoint(d: Decimal)
    requires d.coefficient > 0
    ensures d.exponent > 0 ==> FixedPoint(Finer(d)) == FixedPoint(d)
    ensures d.exponent == 0 ==> FixedPoint(Finer(d)) == FixedPoint(d) + ("." + "0")
    ensures d.exponent < 0 ==> FixedPoint(Finer(d)) == FixedPoint(d) + "0"
  {
    hide Unsigned, Sign;
    var sign, text := Sign(d.negative), Unsigned(d.coefficient, d.exponent);
    if d.exponent > 0 {
      FinerWhole(d.coefficient, d.exponent);
    } else if d.exponent == 0 {
      FinerUnit(d.coefficient);
      Associates(sign, text, "." + "0");
    } else {
      FinerFraction(d.coefficient, d.exponent);
      Associates(sign, text, "0");
    }
  }

  lemma FinerIsSameText(d: Decimal)
    ensures FormatCanonical(Finer(d)) == FormatCanonical(d)
  {
    if d.coefficient > 0 {
      FixedPointShape(d);
      FinerFixedPoint(d);
      hide FixedPoint, Stripped;
      var text := FixedPoint(d);
      if d.exponent == 0 {
        StripUnit(text);
      } else if d.exponent < 0 {
        StripZero(text);
      }
    }
  }

  lemma StripUnit(x: string)
    requires x != "" && IsDigit(x[|x| - 1]) && '.' !in x
    ensures Stripped(x + ("." + "0")) == Stripped(x)
  {
    var y := x + ("." + "0");
    assert y[|x|] == '.';
    assert y[..|y| - 1] == x + ".";
    assert (x + ".")[..|x|] == x;
    assert RStrip(x + ".", '0') == x + ".";
    assert RStrip(y, '0') == x + ".";
    assert RStrip(x, '.') == x;
    assert RStrip(x + ".", '.') == x;
  }

  lemma StripZero(x: string)
    requires '.' in x
    ensures Stripped(x + "0") == Stripped(x)
  {
  }

  lemma StripNothing(x: string)
    requires x != "" && IsDigit(x[|x| - 1]) && ('.' in x ==> x[|x| - 1] != '0')
    ensures Stripped(x) == x
  {
  }

  /** The fixed-point text has digits, a sign if negative, and a point exactly when the exponent is negative. */
  lemma FixedPointShape(d: Decimal)
    ensures var text := FixedPoint(d);
      && text != "" && IsDigit(text[|text| - 1])
      && ('.' in text <==> d.exponent < 0)
      && forall k | 0 <= k < |text| :: IsPlain(text[k])
  {
  }

  predicate IsPlain(c: char) {
    IsDigit(c) || c == '-' || c == '.'
  }

  /** Equal values print alike, whatever their exponents and trailing zeros. */
  lemma {:induction false} SameValueSameText(a: Decimal, b: Decimal)
    requires Value(a) == Value(b)
    ensures FormatCanonical(a) == FormatCanonical(b)
    decreases if a.exponent < b.exponent then b.exponent - a.exponent else a.exponent - b.exponent
  {
    if a.exponent == b.exponent {
      CancelScale(Signed(a), Signed(b), Scale(a.exponent));
      SameSignedSameText(a, b);
      return;
    }
    hide FormatCanonical, Value;
    if a.exponent < b.exponent {
      FinerIsSameValue(b);
      FinerIsSameText(b);
      SameValueSameText(a, Finer(b));
    } else {
      FinerIsSameValue(a);
      FinerIsSameText(a);
      SameValueSameText(Finer(a), b);
    }
  }

  lemma SameSignedSameText(a: Decimal, b: Decimal)
    requires a.exponent == b.exponent && Signed(a) == Signed(b)
    ensures FormatCanonical(a) == FormatCanonical(b)
  {
    hide FixedPoint, RStrip;
    assert a.coefficient == b.coefficient;
    assert a.coefficient > 0 ==> a == b;
  }

  lemma CancelScale(m: int, n: int, s: real)
    requires s > 0.0 && Times(m, s) == Times(n, s)
    ensures m == n
  {
  }

  // ---------- parsing ----------

  /** Parses an optional minus, digits, and an optional point with digits after it. */
  function ParsePlain(text: string): Option<Decimal> {
    var negative := text != "" && text[0] == '-';
    ParseUnsigned(negative, if negative then text[1..] else text)
  }

  function ParseUnsigned(negative: bool, body: string): Option<Decimal> {
    var dot := IndexOf(body, '.');
    var whole, fraction := body[..dot], if dot < |body| then body[dot + 1..] else "";
    if whole != "" && AllDigits(whole) && AllDigits(fraction) && (dot < |body| ==> fraction != "")
    then Some(Decimal(negative, NatOf(whole + fraction), -|fraction|))
    else None
  }

  /** A whole number, or one whose last digit is needed, is read back digit for digit. */
  lemma ParseOfFixedPoint(d: Decimal)
    requires d.coefficient > 0 && (d.exponent == 0 || (d.exponent < 0 && d.coefficient % 10 != 0))
    ensures FormatCanonical(d) == FixedPoint(d) && ParsePlain(FixedPoint(d)) == Some(d)
  {
    FixedPointShape(d);
    FixedPointPieces(d);
    hide ParsePlain, FixedPoint, Stripped;
    StripNothing(FixedPoint(d));
  }

  lemma FixedPointPieces(d: Decimal)
    requires d.exponent <= 0
    ensures ParsePlain(FixedPoint(d)) == Some(d)
    ensures FixedPoint(d) != ""
    ensures d.exponent < 0 ==> (FixedPoint(d)[|FixedPoint(d)| - 1] == '0' <==> d.coefficient % 10 == 0)
  {
    hide ParsePlain, Digits, Unsigned, Padded, Sign;
    if d.exponent == 0 {
      NatOfDigits(d.coefficient);
      UnsignedUnit(d.coefficient);
      hide NatOf, Tail;
      ParsePieces(d.negative, Digits(d.coefficient), "");
      assert Digits(d.coefficient) + "" == Digits(d.coefficient);
    } else {
      UnsignedFraction(d.coefficient, d.exponent);
      FractionPieces(d);
      hide NatOf, Tail;
      var unsigned := Unsigned(d.coefficient, d.exponent);
      assert FixedPoint(d)[|FixedPoint(d)| - 1] == unsigned[|unsigned| - 1];
    }
  }

  lemma FractionPieces(d: Decimal)
    requires d.exponent < 0
    ensures var padded := Padded(d.coefficient, -d.exponent);
      var point := |padded| + d.exponent;
      && ParsePlain(Pieces(d.negative, padded[..point], padded[point..])) == Some(d)
      && (padded[|padded| - 1] == '0' <==> d.coefficient % 10 == 0)
  {
    hide ParsePlain, NatOf, Digits, Padded, Pieces;
    PaddedValue(d.coefficient, -d.exponent);
    LastDigit(d.coefficient);
    var padded := Padded(d.coefficient, -d.exponent);
    var point := |padded| + d.exponent;
    assert padded[..point] + padded[point..] == padded;
    ParsePieces(d.negative, padded[..point], padded[point..]);
  }

  lemma UnsignedUnit(n: nat)
    ensures Unsigned(n, 0) == Digits(n) + Tail("")
  {
  }

  lemma UnsignedFraction(n: nat, e: int)
    requires e < 0
    ensures var padded := Padded(n, -e); Unsigned(n, e) == padded[..|padded| + e] + Tail(padded[|padded| + e..])
    ensures Unsigned(n, e) != "" && Unsigned(n, e)[|Unsigned(n, e)| - 1] == Padded(n, -e)[|Padded(n, -e)| - 1]
  {
    hide Padded;
    var padded := Padded(n, -e);
    Associates(padded[..|padded| + e], ".", padded[|padded| + e..]);
  }

  lemma LastDigit(n: nat)
    ensures Digits(n)[|Digits(n)| - 1] == '0' <==> n % 10 == 0
  {
  }

  lemma PaddedValue(n: nat, k: nat)
    ensures NatOf(Padded(n, k)) == n
    ensures Padded(n, k)[|Padded(n, k)| - 1] == Digits(n)[|Digits(n)| - 1]
  {
    NatOfDigits(n);
    var digits := Digits(n);
    LeadingZeros(if |digits| <= k then k + 1 - |digits| else 0, digits);
  }

  function Tail(fraction: string): string {
    if fraction == "" then "" else "." + fraction
  }

  function Pieces(negative: bool, whole: string, fraction: string): string {
    Sign(negative) + (whole + Tail(fraction))
  }

  lemma ParsePieces(negative: bool, whole: string, fraction: string)
    requires whole != "" && AllDigits(whole) && AllDigits(fraction)
    ensures AllDigits(whole + fraction)
    ensures ParsePlain(Pieces(negative, whole, fraction))
      == Some(Decimal(negative, NatOf(whole + fraction), -|fraction|))
  {
    hide ParseUnsigned, NatOf;
    var body := whole + Tail(fraction);
    assert body[0] == whole[0] != '-';
    assert ("-" + body)[1..] == body && "" + body == body;
    ParseBody(negative, whole, fraction);
  }

  lemma ParseBody(negative: bool, whole: string, fraction: string)
    requires whole != "" && AllDigits(whole) && AllDigits(fraction)
    ensures AllDigits(whole + fraction)
    ensures ParseUnsigned(negative, whole + Tail(fraction))
      == Some(Decimal(negative, NatOf(whole + fraction), -|fraction|))
  {
    hide NatOf, Tail;
    SplitPieces(whole, fraction);
  }

  lemma SplitPieces(whole: string, fraction: string)
    requires AllDigits(whole)
    ensures var body := whole + Tail(fraction);
      && IndexOf(body, '.') == |whole| && body[..|whole|] == whole
      && (|whole| < |body| <==> fraction != "")
      && (fraction != "" ==> body[|whole| + 1..] == fraction)
  {
    var body := whole + Tail(fraction);
    assert body[..|whole|] == whole;
    IndexIs(body, '.', |whole|);
  }

  /** Parsing canonical text gives the value that was printed. */
  lemma {:induction false} ParseOfFormat(d: Decimal)
    ensures ParsePlain(FormatCanonical(d)).Some?
    ensures Value(ParsePlain(FormatCanonical(d)).value) == Value(d)
    decreases if d.exponent < 0 then -d.exponent else d.exponent
  {
    hide FormatCanonical, ParsePlain, Value, FixedPoint;
    if d.coefficient == 0 {
      ParseZero(d);
    } else if d.exponent > 0 {
      FinerIsSameValue(d);
      FinerIsSameText(d);
      ParseOfFormat(Finer(d));
    } else if d.exponent < 0 && d.coefficient % 10 == 0 {
      var coarser := Decimal(d.negative, d.coefficient / 10, d.exponent + 1);
      assert Finer(coarser) == d;
      FinerIsSameValue(coarser);
      FinerIsSameText(coarser);
      ParseOfFormat(coarser);
    } else {
      ParseOfFixedPoint(d);
    }
  }

  lemma ParseZero(d: Decimal)
    requires d.coefficient == 0
    ensures ParsePlain(FormatCanonical(d)).Some? && Value(ParsePlain(FormatCanonical(d)).value) == Value(d) == 0.0
  {
    ParsePieces(false, "0", "");
    assert "0"[..0] == "" && NatOf("0") == 0;
    assert Pieces(false, "0", "") == "0" && "0" + "" == "0";
  }

  /** Canonical text: two decimals print the same exactly when they are equal. */
  lemma CanonicalText(a: Decimal, b: Decimal)
    ensures FormatCanonical(a) == FormatCanonical(b) <==> Value(a) == Value(b)
  {
    hide FormatCanonical, ParsePlain, Value;
    ParseOfFormat(a);
    ParseOfFormat(b);
    if Value(a) == Value(b) {
      SameValueSameText(a, b);
    }
  }

  /** Canonical text is non-empty and made of digits, a minus and a point only. */
  lemma FormatIsPlain(d: Decimal)
    ensures var text := FormatCanonical(d); text != "" && forall k | 0 <= k < |text| :: IsPlain(text[k])
  {
    if d.coefficient > 0 {
      FixedPointShape(d);
      hide FixedPoint;
      StripKeeps(FixedPoint(d), '0');
      StripKeeps(RStrip(FixedPoint(d), '0'), '.');
    }
  }

  lemma {:induction false} StripKeeps(text: string, c: char)
    ensures RStrip(text, c) <= text
  {
    if text != "" { StripKeeps(text[..|text| - 1], c); }
  }

  // ---------- text of values ----------

  ghost predicate IsDecimal(x: real) {
    exists d: Decimal :: Value(d) == x
  }

  /** The printer of a value prints every representation of it. */
  ghost predicate PrintsDecimals(text: real -> string) {
    forall d: Decimal :: text(Value(d)) == FormatCanonical(d)
  }

  ghost function DecimalOf(x: real): (d: Decimal)
    requires IsDecimal(x)
    ensures Value(d) == x
  {
    var d :| Value(d) == x;
    d
  }

  ghost function TextOf(x: real): string {
    if IsDecimal(x) then FormatCanonical(DecimalOf(x)) else ""
  }

  /** Because equal decimals print alike, such a printer exists. */
  lemma TextOfPrints()
    ensures PrintsDecimals(TextOf)
  {
    hide FormatCanonical, Value;
    forall d: Decimal
      ensures TextOf(Value(d)) == FormatCanonical(d)
    {
      assert IsDecimal(Value(d));
      CanonicalText(d, DecimalOf(Value(d)));
    }
  }

  lemma PrintedApart(text: real -> string, x: real, y: real)
    requires PrintsDecimals(text) && IsDecimal(x) && IsDecimal(y)
    ensures text(x) == text(y) <==> x == y
    ensures text(x) != "null"
  {
    hide FormatCanonical, Value;
    var d: Decimal :| Value(d) == x;
    var e: Decimal :| Value(e) == y;
    CanonicalText(d, e);
    FormatIsPlain(d);
    assert IsPlain(text(x)[0]);
  }
}
