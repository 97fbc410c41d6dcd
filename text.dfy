/** The string primitives the stores use, written out for the cases they meet:
    ASCII `toLowerCase`, `includes`, `split(/[ms]/)`, `Number.parseInt` and the
    decimal rendering of an integer inside a template literal. */
module Text {
  import opened Wrappers

  predicate IsDigit(c: char) {
    '0' <= c <= '9'
  }

  function DigitValue(c: char): (d: nat)
    requires IsDigit(c)
    ensures d < 10
  {
    (c as int) - ('0' as int)
  }

  function DigitChar(d: nat): (c: char)
    requires d < 10
    ensures IsDigit(c) && DigitValue(c) == d
  {
    ((('0' as int) + d) as char)
  }

  predicate AllDigits(s: string) {
    forall i :: 0 <= i < |s| ==> IsDigit(s[i])
  }

  // ---------------------------------------------------------------------------
  // toLowerCase and includes

  /** `toLowerCase` restricted to ASCII letters. */
  function LowerChar(c: char): char {
    if 'A' <= c <= 'Z' then ((c as int) + 32) as char else c
  }

  function Lower(s: string): (r: string)
    ensures |r| == |s|
    ensures forall i :: 0 <= i < |s| ==> r[i] == LowerChar(s[i])
  {
    seq(|s|, i requires 0 <= i < |s| => LowerChar(s[i]))
  }

  predicate StartsWith(s: string, prefix: string) {
    |prefix| <= |s| && s[..|prefix|] == prefix
  }

  /** `s.includes(needle)`: `needle` occurs in `s` from some position on. */
  predicate Contains(s: string, needle: string)
    decreases |s|
  {
    StartsWith(s, needle) || (s != [] && Contains(s[1..], needle))
  }

  /** `needle` occurs in `s` starting at index `i`. */
  predicate OccursAt(s: string, needle: string, i: int) {
    0 <= i <= |s| - |needle| && s[i..i + |needle|] == needle
  }

  /** `Contains` holds exactly when `needle` occurs at some index of `s`. */
  lemma {:induction false} ContainsAt(s: string, needle: string)
    ensures Contains(s, needle) <==> exists i :: OccursAt(s, needle, i)
  {
    if Contains(s, needle) {
      if StartsWith(s, needle) {
        assert OccursAt(s, needle, 0);
      } else {
        ContainsAt(s[1..], needle);
        var i :| OccursAt(s[1..], needle, i);
        assert s[1..][i..i + |needle|] == s[i + 1..i + 1 + |needle|];
        assert OccursAt(s, needle, i + 1);
      }
    }
    if exists i :: OccursAt(s, needle, i) {
      var i :| OccursAt(s, needle, i);
      if i == 0 {
        assert StartsWith(s, needle);
      } else {
        assert s[1..][i - 1..i - 1 + |needle|] == s[i..i + |needle|];
        assert OccursAt(s[1..], needle, i - 1);
        ContainsAt(s[1..], needle);
      }
    }
  }

  /** The empty string occurs in every string, so `includes("")` is always true. */
  lemma ContainsEmpty(s: string)
    ensures Contains(s, "")
  {
    assert StartsWith(s, "");
  }

  // ---------------------------------------------------------------------------
  // split(/[ms]/)

  predicate IsUnitSeparator(c: char) {
    c == 'm' || c == 's'
  }

  predicate NoUnitSeparator(s: string) {
    forall i :: 0 <= i < |s| ==> !IsUnitSeparator(s[i])
  }

  /** The index of the first `m` or `s` in `s`, or `|s|` when there is none. */
  function FirstUnitSeparator(s: string): (i: nat)
    ensures i <= |s|
  {
    if s == [] || IsUnitSeparator(s[0]) then 0 else 1 + FirstUnitSeparator(s[1..])
  }

  /** The first separator is one, and none comes before it. */
  lemma {:induction false} FirstUnitSeparatorIsFirst(s: string)
    ensures var i := FirstUnitSeparator(s);
      (i < |s| ==> IsUnitSeparator(s[i])) && NoUnitSeparator(s[..i])
  {
    if s != [] && !IsUnitSeparator(s[0]) {
      var j := FirstUnitSeparator(s[1..]);
      FirstUnitSeparatorIsFirst(s[1..]);
      assert s[..1 + j] == [s[0]] + s[1..][..j];
    }
  }

  /** `s.split(/[ms]/)`: the pieces between occurrences of `m` or `s`. */
  function SplitUnits(s: string): (r: seq<string>)
    ensures |r| >= 1
    decreases |s|
  {
    var i := FirstUnitSeparator(s);
    if i == |s| then [s] else [s[..i]] + SplitUnits(s[i + 1..])
  }

  /** There is a single piece exactly when `s` holds no separator, and no piece
      holds one. */
  lemma {:induction false} SplitUnitsPieces(s: string)
    ensures |SplitUnits(s)| == 1 <==> NoUnitSeparator(s)
    ensures forall k :: 0 <= k < |SplitUnits(s)| ==> NoUnitSeparator(SplitUnits(s)[k])
    decreases |s|
  {
    var i := FirstUnitSeparator(s);
    FirstUnitSeparatorIsFirst(s);
    if i == |s| {
      assert s[..i] == s;
    } else {
      SplitUnitsPieces(s[i + 1..]);
      var r := SplitUnits(s);
      assert r == [s[..i]] + SplitUnits(s[i + 1..]);
      assert !NoUnitSeparator(s) by {
        assert IsUnitSeparator(s[i]);
      }
      forall k | 0 <= k < |r|
        ensures NoUnitSeparator(r[k])
      {
        if k > 0 {
          assert r[k] == SplitUnits(s[i + 1..])[k - 1];
        }
      }
    }
  }

  /** A piece free of separators followed by a separator is split off as the first piece. */
  lemma {:induction false} FirstSeparatorAfterPiece(a: string, c: char, b: string)
    requires NoUnitSeparator(a) && IsUnitSeparator(c)
    ensures FirstUnitSeparator(a + [c] + b) == |a|
  {
    if a == [] {
      assert (a + [c] + b)[0] == c;
    } else {
      assert (a + [c] + b)[0] == a[0];
      assert (a + [c] + b)[1..] == a[1..] + [c] + b;
      FirstSeparatorAfterPiece(a[1..], c, b);
    }
  }

  lemma SplitUnitsAfterPiece(a: string, c: char, b: string)
    requires NoUnitSeparator(a) && IsUnitSeparator(c)
    ensures SplitUnits(a + [c] + b) == [a] + SplitUnits(b)
  {
    var s := a + [c] + b;
    FirstSeparatorAfterPiece(a, c, b);
    assert s[..|a|] == a;
    assert s[|a| + 1..] == b;
  }

  // ---------------------------------------------------------------------------
  // Number.parseInt (decimal)

  /** The characters `parseInt` skips before a number: JavaScript's white space
      and line terminators. */
  predicate IsJsWhitespace(c: char) {
    var n := c as int;
    (9 <= n <= 13) || n == 32 || n == 0xA0 || n == 0x1680 || (0x2000 <= n <= 0x200A)
    || n == 0x2028 || n == 0x2029 || n == 0x202F || n == 0x205F || n == 0x3000 || n == 0xFEFF
  }

  /** The longest prefix of `s` made of decimal digits. */
  function LeadingDigits(s: string): (r: string)
    ensures AllDigits(r) && StartsWith(s, r)
    ensures |r| < |s| ==> !IsDigit(s[|r|])
  {
    if s != [] && IsDigit(s[0]) then [s[0]] + LeadingDigits(s[1..]) else []
  }

  /** The value of a string of decimal digits. */
  function DigitsValue(ds: string): nat
    requires AllDigits(ds)
  {
    if ds == [] then 0 else 10 * DigitsValue(ds[..|ds| - 1]) + DigitValue(ds[|ds| - 1])
  }

  /** The value of the leading digits of `s`; `None` when `s` does not start with one. */
  function ParseDigits(s: string): (r: Option<nat>)
    ensures r.None? <==> s == [] || !IsDigit(s[0])
  {
    var ds := LeadingDigits(s);
    if ds == [] then None else Some(DigitsValue(ds))
  }

  /** `Number.parseInt(s)` with radix 10: leading white space, an optional sign,
      then as many digits as there are; `None` is `NaN` (no digit at all). */
  function ParseInt(s: string): Option<int> {
    if s != [] && IsJsWhitespace(s[0]) then ParseInt(s[1..]) else ParseSigned(s)
  }

  /** `parseInt` after the white space: an optional sign, then digits. */
  function ParseSigned(t: string): Option<int> {
    if t != [] && (t[0] == '-' || t[0] == '+') then
      match ParseDigits(t[1..])
      case None => None
      case Some(v) =>
        var n: int := v;
        if t[0] == '-' then Some(-n) else Some(n)
    else
      match ParseDigits(t)
      case None => None
      case Some(v) => Some(v)
  }

  /** `Number.parseInt(s) || 0`: `NaN` (and zero) become zero. */
  function ParseIntOrZero(s: string): int {
    ParseInt(s).GetOr(0)
  }

  // ---------------------------------------------------------------------------
  // Rendering an integer in a template literal

  function NatToString(n: nat): (r: string)
    ensures |r| >= 1 && AllDigits(r)
  {
    if n < 10 then [DigitChar(n)] else NatToString(n / 10) + [DigitChar(n % 10)]
  }

  /** `${i}` for an integer `i` (below 10^21, where JavaScript switches to exponent form). */
  function IntToString(i: int): (r: string)
    ensures |r| >= 1 && (r[0] == '-' || IsDigit(r[0]))
    ensures forall k :: 0 <= k < |r| ==> r[k] == '-' || IsDigit(r[k])
  {
    if i < 0 then "-" + NatToString(-i) else NatToString(i)
  }

  lemma {:induction false} DigitsValueOfNatToString(n: nat)
    ensures DigitsValue(NatToString(n)) == n
  {
    if n >= 10 {
      var s := NatToString(n);
      assert s[..|s| - 1] == NatToString(n / 10);
      DigitsValueOfNatToString(n / 10);
    }
  }

  lemma {:induction false} LeadingDigitsOfDigits(ds: string)
    requires AllDigits(ds)
    ensures LeadingDigits(ds) == ds
  {
    if ds != [] {
      LeadingDigitsOfDigits(ds[1..]);
    }
  }

  /** The digits of a rendered natural number read back as that number. */
  lemma ParseDigitsNatToString(n: nat)
    ensures ParseDigits(NatToString(n)) == Some(n)
  {
    LeadingDigitsOfDigits(NatToString(n));
    DigitsValueOfNatToString(n);
  }

  /** Parsing the rendering of a natural number gives the number back. */
  lemma ParseIntNatToString(n: nat)
    ensures ParseInt(NatToString(n)) == Some(n)
  {
    ParseIntOfDigits(NatToString(n));
    ParseDigitsNatToString(n);
  }

  /** A string that starts with a digit is parsed from its first character. */
  lemma ParseIntOfDigits(s: string)
    requires s != [] && IsDigit(s[0])
    ensures ParseInt(s) == ParseDigits(s)
  {
    assert !IsJsWhitespace(s[0]);
  }

  /** Parsing the rendering of an integer gives the integer back. */
  lemma ParseIntToString(i: int)
    ensures ParseInt(IntToString(i)) == Some(i)
  {
    if i < 0 {
      var s := IntToString(i);
      var ds := NatToString(-i);
      assert s == "-" + ds;
      assert !IsJsWhitespace(s[0]);
      assert s[1..] == ds;
      ParseDigitsNatToString(-i);
    } else {
      ParseIntNatToString(i);
    }
  }

  /** `parseInt` skips white space in front of a number. */
  lemma ParseIntSkipsSpace(s: string)
    ensures ParseInt(" " + s) == ParseInt(s)
  {
    assert (" " + s)[1..] == s;
  }
}
