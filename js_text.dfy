/** The pieces of JavaScript string semantics the front end relies on:
    the white-space class (`\s` in a regular expression, and what
    `String.prototype.trim` removes), `trim`, the global `replace(/\s/g, "")`
    and the global `parseInt` with no radix argument. The characters are
    those of sections 12.2 (White Space) and 12.3 (Line Terminators) of
    ECMA-262, and `parseInt` follows section 19.2.5. */
module JsText {
  import opened Decimal

  /** A JavaScript number as `parseInt` can produce it: a whole number or
      `NaN`. */
  datatype Number = Int(value: int) | NaN

  /** The white-space and line-terminator characters. */
  predicate IsWhitespace(c: char) {
    || ('\U{0009}' <= c <= '\U{000D}')
    || c == '\U{0020}' || c == '\U{00A0}' || c == '\U{1680}'
    || ('\U{2000}' <= c <= '\U{200A}')
    || c == '\U{2028}' || c == '\U{2029}' || c == '\U{202F}'
    || c == '\U{205F}' || c == '\U{3000}' || c == '\U{FEFF}'
  }

  predicate NoWhitespace(s: string) {
    forall i :: 0 <= i < |s| ==> !IsWhitespace(s[i])
  }

  /** `s` without its leading white space. */
  function TrimStart(s: string): (t: string)
    ensures |t| <= |s| && t == s[|s| - |t|..]
    ensures t == [] || !IsWhitespace(t[0])
    ensures forall i :: 0 <= i < |s| - |t| ==> IsWhitespace(s[i])
  {
    if s != [] && IsWhitespace(s[0]) then TrimStart(s[1..]) else s
  }

  /** `s` without its trailing white space. */
  function TrimEnd(s: string): (t: string)
    ensures |t| <= |s| && t == s[..|t|]
    ensures t == [] || !IsWhitespace(t[|t| - 1])
    ensures forall i :: |t| <= i < |s| ==> IsWhitespace(s[i])
  {
    if s != [] && IsWhitespace(s[|s| - 1]) then TrimEnd(s[..|s| - 1]) else s
  }

  /** `String.prototype.trim`. */
  function Trim(s: string): string {
    TrimEnd(TrimStart(s))
  }

  /** A string trims to nothing exactly when it is all white space. */
  lemma TrimEmpty(s: string)
    ensures Trim(s) == [] <==> forall i :: 0 <= i < |s| ==> IsWhitespace(s[i])
  {
  }

  /** `s.replace(/\s/g, "")`: every white-space character removed, the
      others kept in order. */
  function RemoveWhitespace(s: string): (t: string)
    ensures |t| <= |s| && NoWhitespace(t)
    ensures forall c :: c in t <==> c in s && !IsWhitespace(c)
  {
    if s == [] then []
    else if IsWhitespace(s[0]) then RemoveWhitespace(s[1..])
    else [s[0]] + RemoveWhitespace(s[1..])
  }

  /** A string without white space is left as it is. */
  lemma {:induction false} RemoveWhitespaceNone(s: string)
    requires NoWhitespace(s)
    ensures RemoveWhitespace(s) == s
  {
    if s != [] {
      RemoveWhitespaceNone(s[1..]);
    }
  }

  /** A string of white space only is removed entirely. */
  lemma {:induction false} RemoveWhitespaceAll(s: string)
    requires forall i :: 0 <= i < |s| ==> IsWhitespace(s[i])
    ensures RemoveWhitespace(s) == []
  {
    if s != [] {
      assert forall i :: 0 <= i < |s[1..]| ==> s[1..][i] == s[i + 1];
      RemoveWhitespaceAll(s[1..]);
    }
  }

  /** The longest prefix of `s` made of digits of `radix`. */
  function DigitPrefix(s: string, radix: nat): (z: string)
    ensures |z| <= |s| && z == s[..|z|] && AllDigitsIn(z, radix)
    ensures |z| < |s| ==> !IsDigitIn(s[|z|], radix)
  {
    if s == [] || !IsDigitIn(s[0], radix) then [] else [s[0]] + DigitPrefix(s[1..], radix)
  }

  /** A string of digits is its own longest digit prefix. */
  lemma {:induction false} DigitPrefixAll(s: string, radix: nat)
    requires AllDigitsIn(s, radix)
    ensures DigitPrefix(s, radix) == s
  {
    if s != [] {
      DigitPrefixAll(s[1..], radix);
    }
  }

  /** The global `parseInt(s)`: leading white space is skipped, then one
      optional sign; a `0x` or `0X` prefix switches to radix 16; the longest
      run of digits that follows is read, and `NaN` comes out when that run
      is empty. */
  function ParseInt(s: string): (n: Number)
    ensures n.NaN? <==> DigitPrefix(ParseIntDigits(s).0, ParseIntDigits(s).1) == []
  {
    var t := TrimStart(s);
    var negative := |t| > 0 && t[0] == '-';
    var (body, radix) := ParseIntDigits(s);
    var z := DigitPrefix(body, radix);
    if z == [] then NaN
    else
      var v: int := DigitsValue(z, radix);
      Int(if negative then -v else v)
  }

  /** The text `parseInt` reads its digits from, and the radix it reads
      them in. */
  function ParseIntDigits(s: string): (r: (string, nat))
    ensures r.1 == 10 || r.1 == 16
  {
    var t := TrimStart(s);
    var u := if |t| > 0 && (t[0] == '-' || t[0] == '+') then t[1..] else t;
    if |u| >= 2 && u[0] == '0' && (u[1] == 'x' || u[1] == 'X') then (u[2..], 16) else (u, 10)
  }

  /** The digits `parseInt` reads from a rendered whole number are the
      rendering of its magnitude, in radix 10. */
  lemma ParseIntDigitsOfIntToString(i: int)
    ensures ParseIntDigits(IntToString(i)) == (NatToString(if i < 0 then -i else i), 10)
  {
    var digits := NatToString(if i < 0 then -i else i);
    var s := IntToString(i);
    assert !IsWhitespace(s[0]);
    assert TrimStart(s) == s;
    if i < 0 {
      assert s[1..] == digits;
    }
  }

  /** `parseInt` reads back what `Number.prototype.toString` writes for a
      whole number. */
  lemma ParseIntOfIntToString(i: int)
    ensures ParseInt(IntToString(i)) == Int(i)
  {
    var s := IntToString(i);
    var m: nat := if i < 0 then -i else i;
    ParseIntDigitsOfIntToString(i);
    DigitPrefixAll(NatToString(m), 10);
    NatToStringValue(m);
    assert TrimStart(s) == s;
  }
}
