/**
 * String helpers shared by the server and the two forms of the client: JavaScript's
 * notion of white space and `trim`, ASCII lower-casing, digit tests, `join`, and the
 * phone sanitiser both forms attach to their phone inputs.
 */
module Text {

  /** The characters matched by `\s` in a JavaScript regular expression; they are also
      the ones `String.prototype.trim` removes (white space and line terminators). */
  predicate IsSpace(c: char) {
    c == '\t' || c == '\n' || c == '\U{000B}' || c == '\U{000C}' || c == '\r' || c == ' '
    || c == '\U{00A0}' || c == '\U{1680}' || ('\U{2000}' <= c <= '\U{200A}')
    || c == '\U{2028}' || c == '\U{2029}' || c == '\U{202F}' || c == '\U{205F}'
    || c == '\U{3000}' || c == '\U{FEFF}'
  }

  predicate AllSpace(s: string) {
    forall i :: 0 <= i < |s| ==> IsSpace(s[i])
  }

  /** `s.trimStart()`: the suffix of `s` left after its leading white space. */
  function TrimStart(s: string): (r: string)
    ensures |r| <= |s| && r == s[|s| - |r|..]
    ensures AllSpace(s[..|s| - |r|])
    ensures r == [] || !IsSpace(r[0])
  {
    if s != [] && IsSpace(s[0]) then TrimStart(s[1..]) else s
  }

  /** `s.trimEnd()`: the prefix of `s` left after its trailing white space. */
  function TrimEnd(s: string): (r: string)
    ensures |r| <= |s| && r == s[..|r|]
    ensures AllSpace(s[|r|..])
    ensures r == [] || !IsSpace(r[|r| - 1])
  {
    if s != [] && IsSpace(s[|s| - 1]) then TrimEnd(s[..|s| - 1]) else s
  }

  /** `s.trim()`: the part of `s` between white space at its start and white space at
      its end, chosen so that it neither starts nor ends with white space. */
  function Trim(s: string): (r: string)
    ensures |r| <= |s|
    ensures exists k | 0 <= k <= |s| - |r| :: SpaceAround(s, k, r)
    ensures r == [] || (!IsSpace(r[0]) && !IsSpace(r[|r| - 1]))
  {
    var t := TrimStart(s);
    var r := TrimEnd(t);
    assert r != [] ==> r[0] == t[0];
    TrimIsInner(s, t, r);
    r
  }

  /** `r` sits in `s` at `k`, with only white space before and after it. */
  predicate SpaceAround(s: string, k: int, r: string)
    requires 0 <= k <= |s| - |r|
  {
    r == s[k..k + |r|] && AllSpace(s[..k]) && AllSpace(s[k + |r|..])
  }

  /** Trimming the end of what is left after trimming the start leaves a middle part of
      `s` with only white space around it. */
  lemma TrimIsInner(s: string, t: string, r: string)
    requires t == TrimStart(s) && r == TrimEnd(t)
    ensures |s| - |t| <= |s| - |r| && SpaceAround(s, |s| - |t|, r)
  {
    var k := |s| - |t|;
    MiddleOfSuffix(s, k, r);
    assert r == s[k..k + |r|] && AllSpace(s[..k]) && AllSpace(s[k + |r|..]);
  }

  /** A prefix `r` of the suffix `s[k..]` is the slice `s[k..k + |r|]`, and what follows
      it in the suffix is what follows that slice in `s`. */
  lemma MiddleOfSuffix(s: string, k: int, r: string)
    requires 0 <= k <= |s| && |r| <= |s| - k && r == s[k..][..|r|]
    ensures r == s[k..k + |r|] && s[k..][|r|..] == s[k + |r|..]
  {
  }

  /** Trimming leaves alone a string that neither starts nor ends with white space. */
  lemma TrimKeepsUnspacedEnds(s: string)
    requires s != [] && !IsSpace(s[0]) && !IsSpace(s[|s| - 1])
    ensures Trim(s) == s
  {
    assert TrimStart(s) == s;
  }

  /** A string trims to nothing exactly when every character of it is white space. */
  lemma TrimEmptyIffAllSpace(s: string)
    ensures Trim(s) == [] <==> AllSpace(s)
  {
    var t := TrimStart(s);
    assert s == s[..|s| - |t|] + t;
    if Trim(s) == [] {
      assert AllSpace(t[0..]);
      assert t == [];
      assert s == s[..|s| - |t|];
    } else if t != [] {
      assert !IsSpace(s[|s| - |t|]) by { assert t[0] == s[|s| - |t|]; }
    }
  }

  predicate IsDigit(c: char) {
    '0' <= c <= '9'
  }

  predicate AllDigits(s: string) {
    forall i :: 0 <= i < |s| ==> IsDigit(s[i])
  }

  /** `s.replace(/\D/g, "")`: every digit of `s` is kept, as often as it occurs, and
      nothing else. */
  function KeepDigits(s: string): (r: string)
    ensures AllDigits(r) && |r| <= |s|
    ensures forall c :: multiset(r)[c] == if IsDigit(c) then multiset(s)[c] else 0
  {
    if s == [] then []
    else
      assert s == [s[0]] + s[1..];
      (if IsDigit(s[0]) then [s[0]] else []) + KeepDigits(s[1..])
  }

  /** KeepDigits works character by character: a digit is kept, anything else
      dropped. */
  lemma KeepDigitsOne(c: char)
    ensures KeepDigits([c]) == if IsDigit(c) then [c] else []
  {
    assert [c][1..] == [];
  }

  /** KeepDigits of a concatenation is the concatenation of the kept digits, so the
      digits come out in the order they were typed. */
  lemma {:induction false} KeepDigitsAppend(a: string, b: string)
    ensures KeepDigits(a + b) == KeepDigits(a) + KeepDigits(b)
  {
    if a == [] {
      assert a + b == b;
    } else {
      var head := if IsDigit(a[0]) then [a[0]] else [];
      assert (a + b)[0] == a[0];
      assert (a + b)[1..] == a[1..] + b;
      assert KeepDigits(a + b) == head + KeepDigits(a[1..] + b);
      KeepDigitsAppend(a[1..], b);
      assert KeepDigits(a) == head + KeepDigits(a[1..]);
      ConcatAssociates(head, KeepDigits(a[1..]), KeepDigits(b));
    }
  }

  lemma ConcatAssociates(x: string, y: string, z: string)
    ensures x + (y + z) == (x + y) + z
  {
  }

  /** A string of digits only is left as it is by KeepDigits. */
  lemma {:induction false} KeepDigitsOfDigits(s: string)
    requires AllDigits(s)
    ensures KeepDigits(s) == s
  {
    if s != [] {
      KeepDigitsOfDigits(s[1..]);
      assert s == [s[0]] + s[1..];
    }
  }

  const PhoneLength: nat := 10

  /** `value.replace(/\D/g, "").slice(0, 10)`: the first ten digits of the input (all of
      them when there are fewer). */
  function SanitizePhone(value: string): (r: string)
    ensures AllDigits(r) && |r| <= PhoneLength
    ensures r <= KeepDigits(value)
    ensures |r| == PhoneLength || r == KeepDigits(value)
  {
    var d := KeepDigits(value);
    if |d| <= PhoneLength then d else d[..PhoneLength]
  }

  /** Sanitising an already sanitised phone changes nothing. */
  lemma SanitizePhoneIdempotent(value: string)
    ensures SanitizePhone(SanitizePhone(value)) == SanitizePhone(value)
  {
    KeepDigitsOfDigits(SanitizePhone(value));
  }

  /** The strings the sanitiser leaves alone are exactly the digit strings of at most
      ten characters. */
  lemma SanitizePhoneFixedPoints(s: string)
    ensures SanitizePhone(s) == s <==> AllDigits(s) && |s| <= PhoneLength
  {
    if AllDigits(s) {
      KeepDigitsOfDigits(s);
    }
  }

  predicate IsUpper(c: char) {
    'A' <= c <= 'Z'
  }

  function LowerChar(c: char): char {
    if IsUpper(c) then (c as int + 32) as char else c
  }

  /** `s.toLowerCase()` restricted to ASCII: the length is kept, every upper-case
      letter becomes the same letter in lower case, and every other character is kept
      in place. */
  function ToLower(s: string): (r: string)
    ensures |r| == |s|
    ensures forall i :: 0 <= i < |r| ==> !IsUpper(r[i])
    ensures forall i :: 0 <= i < |s| && IsUpper(s[i]) ==> r[i] as int == s[i] as int + ('a' as int - 'A' as int)
    ensures forall i :: 0 <= i < |s| && !IsUpper(s[i]) ==> r[i] == s[i]
  {
    seq(|s|, i requires 0 <= i < |s| => LowerChar(s[i]))
  }

  /** Lower-casing a lower-cased string changes nothing. */
  lemma ToLowerIdempotent(s: string)
    ensures ToLower(ToLower(s)) == ToLower(s)
  {
  }

  /** `x` and `y` are the same character, or the same ASCII letter in two cases. */
  predicate SameIgnoringCase(x: char, y: char) {
    x == y
    || (IsUpper(x) && y as int == x as int + ('a' as int - 'A' as int))
    || (IsUpper(y) && x as int == y as int + ('a' as int - 'A' as int))
  }

  /** Two strings lower-case to the same string exactly when they differ only in the
      case of their ASCII letters. */
  lemma ToLowerEqualIff(a: string, b: string)
    ensures ToLower(a) == ToLower(b)
      <==> |a| == |b| && forall i :: 0 <= i < |a| ==> SameIgnoringCase(a[i], b[i])
  {
    if ToLower(a) == ToLower(b) {
      forall i | 0 <= i < |a|
        ensures SameIgnoringCase(a[i], b[i])
      {
        assert ToLower(a)[i] == ToLower(b)[i];
      }
    } else if |a| == |b| {
      var i :| 0 <= i < |a| && ToLower(a)[i] != ToLower(b)[i];
      assert !SameIgnoringCase(a[i], b[i]);
    }
  }

  /** `parts.join(sep)`: it starts with the first part, and its length is that of
      the parts plus one separator between each pair of neighbouring parts. */
  function Join(parts: seq<string>, sep: string): (r: string)
    ensures parts == [] ==> r == []
    ensures parts != [] ==> parts[0] <= r
    ensures |r| == Lengths(parts) + (if parts == [] then 0 else (|parts| - 1) * |sep|)
  {
    if parts == [] then []
    else if |parts| == 1 then parts[0]
    else parts[0] + sep + Join(parts[1..], sep)
  }

  /** Joining one more part adds the separator and that part at the end, so the parts
      appear in order with a separator between each pair of neighbours. */
  lemma {:induction false} JoinAppend(parts: seq<string>, x: string, sep: string)
    requires parts != []
    ensures Join(parts + [x], sep) == Join(parts, sep) + sep + x
  {
    var all := parts + [x];
    if |parts| == 1 {
      assert all[1..] == [x];
    } else {
      assert all[1..] == parts[1..] + [x];
      JoinAppend(parts[1..], x, sep);
      var j := Join(parts[1..], sep);
      calc {
        Join(all, sep);
        parts[0] + sep + (j + sep + x);
        { ConcatAssociates(parts[0] + sep, j, sep + x); }
        parts[0] + sep + j + sep + x;
      }
    }
  }

  /** The total length of the parts. */
  function Lengths(parts: seq<string>): nat {
    if parts == [] then 0 else |parts[0]| + Lengths(parts[1..])
  }
}
