/**
 * The two JavaScript number conversions the booking form applies to the guest count,
 * which arrives as text: whether `isNaN(s)` holds for a string `s` (the
 * StringNumericLiteral grammar of ToNumber, section 7.1.4.1.1 of ECMAScript 2024) and
 * the value of `parseInt(s)` with no radix (section 19.2.5). NaN is `None`.
 */
module JsNumber {
  import opened Wrappers
  import opened Text

  predicate IsDigits(s: string) {
    |s| > 0 && AllDigits(s)
  }

  /** The value of a character as a digit in base `radix` (10 or 16), or -1. */
  function DigitValue(c: char, radix: int): (v: int)
    requires radix == 10 || radix == 16
    ensures v == -1 || 0 <= v < radix
    ensures radix == 10 ==> (v >= 0 <==> IsDigit(c))
  {
    if IsDigit(c) then c as int - '0' as int
    else if radix == 16 && 'a' <= c <= 'f' then c as int - 'a' as int + 10
    else if radix == 16 && 'A' <= c <= 'F' then c as int - 'A' as int + 10
    else -1
  }

  predicate IsRadixDigit(c: char, radix: int)
    requires radix == 10 || radix == 16
  {
    DigitValue(c, radix) >= 0
  }

  /** The length of the longest prefix of `s` made of digits of base `radix`. */
  function RadixPrefix(s: string, radix: int): (n: nat)
    requires radix == 10 || radix == 16
    ensures n <= |s|
    ensures forall i :: 0 <= i < n ==> IsRadixDigit(s[i], radix)
    ensures n < |s| ==> !IsRadixDigit(s[n], radix)
  {
    if s != [] && IsRadixDigit(s[0], radix) then 1 + RadixPrefix(s[1..], radix) else 0
  }

  /** The number written by the digits `ds` in base `radix`, most significant first. */
  function ValueOf(ds: string, radix: int): (v: int)
    requires radix == 10 || radix == 16
    requires forall i :: 0 <= i < |ds| ==> IsRadixDigit(ds[i], radix)
    ensures v >= 0
  {
    if ds == [] then 0
    else
      var high := ValueOf(ds[..|ds| - 1], radix);
      assert high * radix >= 0;
      assert IsRadixDigit(ds[|ds| - 1], radix);
      high * radix + DigitValue(ds[|ds| - 1], radix)
  }

  /** The value of the longest run of base-`radix` digits at the start of `body`, or
      NaN when `body` does not start with one. */
  function LeadingValue(body: string, radix: int): (r: Option<int>)
    requires radix == 10 || radix == 16
    ensures r.Some? <==> body != [] && IsRadixDigit(body[0], radix)
    ensures r.Some? ==> r.value >= 0
  {
    var n := RadixPrefix(body, radix);
    if n == 0 then None
    else
      var ds := body[..n];
      assert forall i :: 0 <= i < |ds| ==> ds[i] == body[i];
      Some(ValueOf(ds, radix))
  }

  /** `parseInt` after the sign: a `0x`/`0X` prefix switches to base 16. The value is
      never negative, and there is one whenever `u` starts with a decimal digit that
      does not open a hex prefix. */
  function ParseUnsigned(u: string): (r: Option<int>)
    ensures r.Some? ==> r.value >= 0
    ensures u != [] && IsDigit(u[0]) && (|u| == 1 || (u[1] != 'x' && u[1] != 'X')) ==> r.Some?
  {
    if |u| >= 2 && u[0] == '0' && (u[1] == 'x' || u[1] == 'X') then LeadingValue(u[2..], 16)
    else LeadingValue(u, 10)
  }

  /** `parseInt(s)`: leading white space is skipped, an optional sign read, a `0x`/`0X`
      prefix switches to base 16, and the longest run of digits that follows gives the
      value; with no digit at all the result is NaN. So NaN comes back for text that is
      blank, a negative number only after a minus sign, and a number that is not
      negative whenever the text starts with a decimal digit that does not open a hex
      prefix. */
  function ParseInt(s: string): (r: Option<int>)
    ensures TrimStart(s) == [] ==> r.None?
    ensures r.Some? && r.value < 0 ==> TrimStart(s)[0] == '-'
    ensures var t := TrimStart(s);
      t != [] && IsDigit(t[0]) && (|t| == 1 || (t[1] != 'x' && t[1] != 'X')) ==> r.Some? && r.value >= 0
  {
    var t := TrimStart(s);
    if t == [] then None
    else if t[0] == '-' then
      match ParseUnsigned(t[1..])
      case None => None
      case Some(v) => Some(-v)
    else if t[0] == '+' then ParseUnsigned(t[1..])
    else ParseUnsigned(t)
  }

  /** `parseInt` reads a run of decimal digits and stops at the first character that
      is not one: "12abc" gives 12 and "1.9" gives 1. A lone `0` followed by `x` or `X`
      is the hex prefix instead. */
  lemma ParseIntReadsLeadingDigits(g: string, rest: string)
    requires IsDigits(g)
    requires rest == [] || !IsDigit(rest[0])
    requires !(|g| == 1 && g[0] == '0' && rest != [] && (rest[0] == 'x' || rest[0] == 'X'))
    ensures ParseInt(g + rest) == Some(ValueOf(g, 10))
  {
    assert (g + rest)[0] == g[0];
    UnsignedStart(g + rest);
    LeadingDigitsAreDecimal(g, rest);
    LeadingDigitsValue(g, rest);
  }

  /** Text that starts with a digit has neither white space nor a sign to skip. */
  lemma UnsignedStart(u: string)
    requires u != [] && IsDigit(u[0])
    ensures ParseInt(u) == ParseUnsigned(u)
  {
    DigitIsNotSpace(u[0]);
    assert TrimStart(u) == u;
    assert u[0] != '-' && u[0] != '+';
  }

  /** Digits in front of `rest` are read in base 10. */
  lemma LeadingDigitsAreDecimal(g: string, rest: string)
    requires IsDigits(g)
    requires !(|g| == 1 && g[0] == '0' && rest != [] && (rest[0] == 'x' || rest[0] == 'X'))
    ensures ParseUnsigned(g + rest) == LeadingValue(g + rest, 10)
  {
    var u := g + rest;
    assert u[0] == g[0];
    if |g| >= 2 {
      assert u[1] == g[1];
      assert IsDigit(g[1]);
    } else if rest != [] {
      assert u[1] == rest[0];
    }
  }

  lemma LeadingDigitsValue(g: string, rest: string)
    requires IsDigits(g)
    requires rest == [] || !IsDigit(rest[0])
    ensures LeadingValue(g + rest, 10) == Some(ValueOf(g, 10))
  {
    RadixPrefixStops(g, rest);
    assert (g + rest)[..|g|] == g;
  }

  /** The run of decimal digits at the start of `g + rest` is exactly `g` when `rest`
      does not start with a digit. */
  lemma {:induction false} RadixPrefixStops(g: string, rest: string)
    requires AllDigits(g)
    requires rest == [] || !IsDigit(rest[0])
    ensures RadixPrefix(g + rest, 10) == |g|
  {
    if g == [] {
      assert g + rest == rest;
    } else {
      assert (g + rest)[0] == g[0];
      assert (g + rest)[1..] == g[1..] + rest;
      assert IsRadixDigit(g[0], 10);
      RadixPrefixStops(g[1..], rest);
    }
  }

  /** The index of the first `e` or `E` in `s`, or `|s|` when there is none. */
  function ExponentStart(s: string): (k: nat)
    ensures k <= |s|
    ensures k < |s| ==> s[k] == 'e' || s[k] == 'E'
    ensures forall i :: 0 <= i < k ==> s[i] != 'e' && s[i] != 'E'
  {
    if s == [] || s[0] == 'e' || s[0] == 'E' then 0 else 1 + ExponentStart(s[1..])
  }

  /** `ddd`, `ddd.`, `ddd.ddd` or `.ddd`. */
  predicate Mantissa(m: string) {
    var i := RadixPrefix(m, 10);
    (i == |m| && i > 0) || (i < |m| && m[i] == '.' && AllDigits(m[i + 1..]) && (i > 0 || i + 1 < |m|))
  }

  predicate SignedDigits(e: string) {
    if e != [] && (e[0] == '+' || e[0] == '-') then IsDigits(e[1..]) else IsDigits(e)
  }

  /** StrUnsignedDecimalLiteral: `Infinity`, or a mantissa with an optional exponent. */
  predicate UnsignedDecimal(s: string) {
    s == "Infinity" ||
    var k := ExponentStart(s);
    Mantissa(s[..k]) && (k == |s| || SignedDigits(s[k + 1..]))
  }

  /** NonDecimalIntegerLiteral: `0b`, `0o` or `0x` (either case) and digits of that base. */
  predicate NonDecimalInteger(s: string) {
    |s| > 2 && s[0] == '0' &&
    ( ((s[1] == 'b' || s[1] == 'B') && forall i | 2 <= i < |s| :: s[i] == '0' || s[i] == '1')
      || ((s[1] == 'o' || s[1] == 'O') && forall i | 2 <= i < |s| :: '0' <= s[i] <= '7')
      || ((s[1] == 'x' || s[1] == 'X') && forall i | 2 <= i < |s| :: IsRadixDigit(s[i], 16)) )
  }

  /** `s` converts to a number (possibly 0 or an infinity) rather than to NaN: after
      trimming it is empty, a non-decimal integer, or an optionally signed decimal. */
  predicate IsNumericText(s: string) {
    var t := Trim(s);
    t == [] || NonDecimalInteger(t)
    || (if t[0] == '+' || t[0] == '-' then UnsignedDecimal(t[1..]) else UnsignedDecimal(t))
  }

  /** `isNaN(s)` for a string `s`: never for blank text, which converts to 0, nor for
      decimal digits with white space around them. */
  function IsNaNText(s: string): (nan: bool)
    ensures Trim(s) == [] ==> !nan
    ensures IsDigits(Trim(s)) ==> !nan
  {
    TrimmedDigitsAreNumeric(s);
    !IsNumericText(s)
  }

  lemma TrimmedDigitsAreNumeric(s: string)
    ensures IsDigits(Trim(s)) ==> IsNumericText(s)
  {
    var g := Trim(s);
    if IsDigits(g) {
      assert IsDigit(g[0]);
      DigitsAreUnsignedDecimal(g);
      UnsignedIsNumeric(s);
    }
  }

  /** For a non-empty string of decimal digits, `isNaN` is false and `parseInt` gives the
      number the digits write. */
  lemma DigitStringConverts(g: string)
    ensures IsDigits(g) ==> !IsNaNText(g)
    ensures IsDigits(g) ==> ParseInt(g) == Some(ValueOf(g, 10))
  {
    if IsDigits(g) {
      DigitStringIsNumeric(g);
      DigitStringParses(g);
    }
  }

  lemma DigitStringIsNumeric(g: string)
    requires IsDigits(g)
    ensures IsNumericText(g)
  {
    assert IsDigit(g[0]);
    TrimOfDigits(g);
    DigitsAreUnsignedDecimal(g);
    UnsignedIsNumeric(g);
  }

  lemma DigitsAreUnsignedDecimal(g: string)
    requires IsDigits(g)
    ensures UnsignedDecimal(g)
  {
    RadixPrefixStops(g, []);
    assert g + [] == g;
    DigitsHaveNoExponent(g);
    assert g[..|g|] == g;
    assert Mantissa(g);
  }

  /** Trimmed text that is an unsigned decimal converts to a number. */
  lemma UnsignedIsNumeric(s: string)
    requires Trim(s) != [] && Trim(s)[0] != '+' && Trim(s)[0] != '-'
    requires UnsignedDecimal(Trim(s))
    ensures IsNumericText(s)
  {
  }

  /** Trimming leaves a non-empty string of digits as it is. */
  lemma TrimOfDigits(g: string)
    requires IsDigits(g)
    ensures TrimStart(g) == g && TrimEnd(g) == g
  {
    DigitIsNotSpace(g[0]);
    DigitIsNotSpace(g[|g| - 1]);
  }

  lemma DigitIsNotSpace(c: char)
    requires IsDigit(c)
    ensures !IsSpace(c)
  {
  }

  lemma DigitsHaveNoExponent(g: string)
    requires AllDigits(g)
    ensures ExponentStart(g) == |g|
  {
  }

  lemma DigitStringParses(g: string)
    requires IsDigits(g)
    ensures ParseInt(g) == Some(ValueOf(g, 10))
  {
    ParseIntReadsLeadingDigits(g, []);
    assert g + [] == g;
  }
}
