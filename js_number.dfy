/**
 * JavaScript's `Number(string)` (the StringToNumber conversion of ECMAScript): surrounding
 * white space is dropped, an empty remainder is 0, and otherwise the text must be a
 * decimal literal (optional sign, digits with an optional fraction and exponent, or
 * `Infinity`) or an unsigned binary, octal or hexadecimal integer literal; anything
 * else is NaN. Values are exact rationals: the rounding to the nearest double is not
 * modelled.
 */
module JsNumber {
  import opened Wrappers
  import Text

  datatype Number = NaN | Finite(value: real) | Infinity(negative: bool)

  /** `n > 0` on a JavaScript number: false for NaN. */
  predicate Positive(n: Number)
  {
    (n.Finite? && n.value > 0.0) || (n.Infinity? && !n.negative)
  }

  /** `n >= 0` on a JavaScript number: false for NaN. */
  predicate NonNegative(n: Number)
  {
    (n.Finite? && n.value >= 0.0) || (n.Infinity? && !n.negative)
  }

  // ---------------------------------------------------------------------------
  // White space

  /** The white space and line terminators the conversion trims. */
  predicate IsJsSpace(c: char)
  {
    var u := c as int;
    || 0x09 <= u <= 0x0D || u == 0x20 || u == 0xA0 || u == 0x1680 || 0x2000 <= u <= 0x200A
    || u == 0x2028 || u == 0x2029 || u == 0x202F || u == 0x205F || u == 0x3000 || u == 0xFEFF
  }

  function TrimStart(s: string): (r: string)
    ensures |r| <= |s| && r == s[|s| - |r|..]
    ensures forall i :: 0 <= i < |s| - |r| ==> IsJsSpace(s[i])
    ensures r != [] ==> !IsJsSpace(r[0])
  {
    if s != [] && IsJsSpace(s[0]) then TrimStart(s[1..]) else s
  }

  function TrimEnd(s: string): (r: string)
    ensures |r| <= |s| && r == s[..|r|]
    ensures forall i :: |r| <= i < |s| ==> IsJsSpace(s[i])
    ensures r != [] ==> !IsJsSpace(r[|r| - 1])
  {
    if s != [] && IsJsSpace(s[|s| - 1]) then TrimEnd(s[..|s| - 1]) else s
  }

  /** Both ends trimmed. */
  function Trim(s: string): string
  {
    TrimEnd(TrimStart(s))
  }

  // ---------------------------------------------------------------------------
  // Digits

  predicate AllDigits(s: string)
  {
    forall i :: 0 <= i < |s| ==> Text.IsDigit(s[i])
  }

  /** The value of a digit in bases up to 16 (either case), or -1. */
  function HexDigitValue(c: char): (v: int)
    ensures -1 <= v < 16
  {
    if '0' <= c <= '9' then c as int - '0' as int
    else if 'a' <= c <= 'f' then c as int - 'a' as int + 10
    else if 'A' <= c <= 'F' then c as int - 'A' as int + 10
    else -1
  }

  predicate DigitsIn(s: string, base: nat)
  {
    forall i :: 0 <= i < |s| ==> 0 <= HexDigitValue(s[i]) < base
  }

  /** The value of digits in a base, most significant first. */
  function RadixValue(s: string, base: nat): nat
    requires DigitsIn(s, base)
  {
    if s == [] then 0
    else
      var d := HexDigitValue(s[|s| - 1]);
      assert 0 <= d;
      base * RadixValue(s[..|s| - 1], base) + d
  }

  function Pow10(n: nat): (r: real)
    ensures r >= 1.0
  {
    if n == 0 then 1.0 else 10.0 * Pow10(n - 1)
  }

  /** Multiplying by ten to a possibly negative power. */
  function Scale(exponent: int): (r: real)
    ensures r > 0.0
  {
    if exponent >= 0 then Pow10(exponent) else 1.0 / Pow10(-exponent)
  }

  /** The first position holding one of two characters, or the length. */
  function IndexOfEither(s: string, a: char, b: char): (k: nat)
    ensures k <= |s|
    ensures k < |s| ==> s[k] == a || s[k] == b
    ensures forall i :: 0 <= i < k ==> s[i] != a && s[i] != b
  {
    if s == [] then 0
    else if s[0] == a || s[0] == b then 0
    else 1 + IndexOfEither(s[1..], a, b)
  }

  // ---------------------------------------------------------------------------
  // The literal forms

  /** `DecimalDigits . DecimalDigits?`, `. DecimalDigits` or `DecimalDigits`. */
  function Mantissa(m: string): (r: Option<real>)
    ensures AllDigits(m) && m != [] ==> r == Some(Text.DigitsValue(m) as real)
  {
    var dot := IndexOfEither(m, '.', '.');
    var whole := m[..dot];
    var fraction := if dot < |m| then m[dot + 1..] else "";
    if AllDigits(whole) && AllDigits(fraction) && (whole != [] || fraction != []) then
      assert dot == |m| ==> whole == m;
      Some(Text.DigitsValue(whole) as real + Text.DigitsValue(fraction) as real / Pow10(|fraction|))
    else None
  }

  /** An exponent's `SignedInteger`. */
  function SignedDigits(s: string): Option<int>
  {
    var negative := s != [] && s[0] == '-';
    var digits := if s != [] && (s[0] == '+' || s[0] == '-') then s[1..] else s;
    if digits != [] && AllDigits(digits) then
      var v: int := Text.DigitsValue(digits);
      Some(if negative then -v else v)
    else None
  }

  /** `StrUnsignedDecimalLiteral` other than `Infinity`: a mantissa and an optional exponent. */
  function UnsignedDecimal(u: string): Option<real>
  {
    var e := IndexOfEither(u, 'e', 'E');
    var mantissa := Mantissa(u[..e]);
    var exponent := if e == |u| then Some(0) else SignedDigits(u[e + 1..]);
    if mantissa.Some? && exponent.Some? then Some(mantissa.value * Scale(exponent.value)) else None
  }

  /** `StrDecimalLiteral`: an optional sign before an unsigned decimal literal. */
  function Decimal(t: string): Number
  {
    var negative := t != [] && t[0] == '-';
    var u := if t != [] && (t[0] == '+' || t[0] == '-') then t[1..] else t;
    if u == "Infinity" then Infinity(negative)
    else
      match UnsignedDecimal(u)
      case None => NaN
      case Some(v) => Finite(if negative then -v else v)
  }

  /** A `0x`, `0o` or `0b` literal's digits in its base. */
  function Radix(digits: string, base: nat): Number
  {
    if digits != [] && DigitsIn(digits, base) then Finite(RadixValue(digits, base) as real) else NaN
  }

  /** The base a two-character prefix announces, or 0 for none. */
  function PrefixBase(t: string): nat
  {
    if |t| < 2 || t[0] != '0' then 0
    else if t[1] == 'x' || t[1] == 'X' then 16
    else if t[1] == 'o' || t[1] == 'O' then 8
    else if t[1] == 'b' || t[1] == 'B' then 2
    else 0
  }

  /** `Number(s)`. */
  function ToNumber(s: string): Number
  {
    var t := Trim(s);
    if t == [] then Finite(0.0)
    else if PrefixBase(t) != 0 then Radix(t[2..], PrefixBase(t))
    else Decimal(t)
  }

  // ---------------------------------------------------------------------------
  // Properties of the conversion

  /** Trimming a text that is white space throughout leaves nothing. */
  lemma {:induction false} TrimStartAllSpace(s: string)
    requires forall i :: 0 <= i < |s| ==> IsJsSpace(s[i])
    ensures TrimStart(s) == ""
  {
    if s != [] {
      TrimStartAllSpace(s[1..]);
    }
  }

  /** The empty text and white space alone convert to 0, not NaN. */
  lemma BlankIsZero(s: string)
    requires forall i :: 0 <= i < |s| ==> IsJsSpace(s[i])
    ensures ToNumber(s) == Finite(0.0)
  {
    TrimStartAllSpace(s);
  }

  /** Trimming leaves a text whose ends are not white space as it is. */
  lemma TrimKeepsInner(s: string)
    requires s != [] && !IsJsSpace(s[0]) && !IsJsSpace(s[|s| - 1])
    ensures Trim(s) == s
  {
  }

  /** A text holding neither character is searched to its end. */
  lemma {:induction false} IndexOfEitherAbsent(s: string, a: char, b: char)
    requires forall i :: 0 <= i < |s| ==> s[i] != a && s[i] != b
    ensures IndexOfEither(s, a, b) == |s|
  {
    if s != [] {
      IndexOfEitherAbsent(s[1..], a, b);
    }
  }

  /** Without an exponent mark, an unsigned decimal literal is its mantissa. */
  lemma UnsignedDecimalWithoutExponent(u: string)
    requires forall i :: 0 <= i < |u| ==> u[i] != 'e' && u[i] != 'E'
    ensures UnsignedDecimal(u) == Mantissa(u)
  {
    IndexOfEitherAbsent(u, 'e', 'E');
    assert u[..|u|] == u;
    var m := Mantissa(u);
    if m.Some? {
      ScaleZeroKeeps(m.value);
    }
  }

  /** Scaling by ten to the power zero changes nothing. */
  lemma ScaleZeroKeeps(x: real)
    ensures x * Scale(0) == x
  {
    assert Scale(0) == 1.0;
  }

  /** A digit string is an unsigned decimal literal with its digits' value. */
  lemma UnsignedDecimalOfDigits(t: string)
    requires t != [] && AllDigits(t)
    ensures UnsignedDecimal(t) == Some(Text.DigitsValue(t) as real)
  {
    forall i | 0 <= i < |t| ensures t[i] != 'e' && t[i] != 'E' {
      assert Text.IsDigit(t[i]);
    }
    UnsignedDecimalWithoutExponent(t);
  }

  /** A digit string converts to its digits' value. */
  lemma ToNumberOfDigits(t: string)
    requires t != [] && AllDigits(t)
    ensures ToNumber(t) == Finite(Text.DigitsValue(t) as real)
  {
    assert Text.IsDigit(t[0]) && Text.IsDigit(t[|t| - 1]);
    TrimKeepsInner(t);
    assert PrefixBase(t) == 0 by {
      if |t| >= 2 {
        assert Text.IsDigit(t[1]);
      }
    }
    assert t != "Infinity" by {
      assert Text.IsDigit(t[0]);
    }
    UnsignedDecimalOfDigits(t);
  }

  /** A minus sign before a digit string converts to the negated value. */
  lemma ToNumberOfNegativeDigits(d: string)
    requires d != [] && AllDigits(d)
    ensures ToNumber("-" + d) == Finite(-(Text.DigitsValue(d) as real))
  {
    var t := "-" + d;
    assert Text.IsDigit(d[|d| - 1]) && t[|t| - 1] == d[|d| - 1];
    TrimKeepsInner(t);
    NegativeDecimal(d);
  }

  lemma NegativeDecimal(d: string)
    requires d != [] && AllDigits(d)
    ensures Decimal("-" + d) == Finite(-(Text.DigitsValue(d) as real))
  {
    assert ("-" + d)[1..] == d;
    assert d != "Infinity" by {
      assert Text.IsDigit(d[0]);
    }
    UnsignedDecimalOfDigits(d);
  }

  /** The decimal rendering of a natural number converts back to that number. */
  lemma NumberOfNatToString(n: nat)
    ensures ToNumber(Text.NatToString(n)) == Finite(n as real)
  {
    ToNumberOfDigits(Text.NatToString(n));
    Text.DigitsValueOfNatToString(n);
  }

  /** A minus sign before a natural number's rendering negates it. */
  lemma NumberOfNegated(n: nat)
    ensures ToNumber("-" + Text.NatToString(n)) == Finite(-(n as real))
  {
    ToNumberOfNegativeDigits(Text.NatToString(n));
    Text.DigitsValueOfNatToString(n);
  }

  /** `Infinity` is a number to JavaScript, and a positive one. */
  lemma InfinityIsANumber()
    ensures ToNumber("Infinity") == Infinity(false)
  {
    ToNumberOfInner("Infinity");
    assert PrefixBase("Infinity") == 0;
  }

  /** Past the trimming, a text is a prefixed integer literal or a decimal literal. */
  lemma ToNumberOfInner(t: string)
    requires t != [] && !IsJsSpace(t[0]) && !IsJsSpace(t[|t| - 1])
    ensures ToNumber(t) == if PrefixBase(t) != 0 then Radix(t[2..], PrefixBase(t)) else Decimal(t)
  {
    TrimKeepsInner(t);
  }

  /** Two digits in a base are worth the first times the base plus the second. */
  lemma RadixOfTwo(digits: string, base: nat)
    requires |digits| == 2 && DigitsIn(digits, base)
    ensures Radix(digits, base) == Finite((base * HexDigitValue(digits[0]) + HexDigitValue(digits[1])) as real)
  {
    var first := digits[..1];
    assert first[..0] == [] && DigitsIn(first, base);
    assert RadixValue(first, base) == HexDigitValue(digits[0]);
    assert RadixValue(digits, base) == base * RadixValue(first, base) + HexDigitValue(digits[1]);
  }

  /** A hexadecimal literal converts to its value. */
  lemma HexIsANumber()
    ensures ToNumber("0x1F") == Finite(31.0)
  {
    ToNumberOfInner("0x1F");
    assert PrefixBase("0x1F") == 16;
    assert "0x1F"[2..] == "1F";
    RadixOfTwo("1F", 16);
  }

  /**
   * A text that starts with a digit, holds a comma and has no exponent mark forms no
   * decimal literal.
   */
  lemma DecimalWithComma(t: string, k: int)
    requires t != [] && Text.IsDigit(t[0])
    requires 0 <= k < |t| && t[k] == ','
    requires forall i :: 0 <= i < |t| ==> t[i] != 'e' && t[i] != 'E'
    ensures Decimal(t) == NaN
  {
    UnsignedDecimalWithoutExponent(t);
    var dot := IndexOfEither(t, '.', '.');
    if k < dot {
      assert t[..dot][k] == ',';
    } else {
      assert k != dot;
      assert t[dot + 1..][k - dot - 1] == ',';
    }
    assert Mantissa(t) == None;
  }

  /** A decimal comma forms no literal: the text is NaN. */
  lemma DecimalCommaIsNaN()
    ensures ToNumber("1,5") == NaN
  {
    ToNumberOfInner("1,5");
    assert PrefixBase("1,5") == 0;
    DecimalWithComma("1,5", 1);
  }
}
