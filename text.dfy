/** Character classes, joining and splitting, and decimal printing and parsing of integers. */
module Text {
  import opened Wrappers

  /** The characters matched by the `\s` class of ECMAScript regular expressions
      (WhiteSpace and LineTerminator code points). */
  predicate IsWhitespace(c: char) {
    || c == ' ' || c == '\t' || c == '\n' || c == '\U{000B}' || c == '\U{000C}' || c == '\r'
    || c == '\U{00A0}' || c == '\U{1680}' || ('\U{2000}' <= c <= '\U{200A}')
    || c == '\U{2028}' || c == '\U{2029}' || c == '\U{202F}' || c == '\U{205F}'
    || c == '\U{3000}' || c == '\U{FEFF}'
  }

  predicate IsDigit(c: char) { '0' <= c <= '9' }

  predicate AllDigits(s: string) { forall i | 0 <= i < |s| :: IsDigit(s[i]) }

  /** JavaScript truthiness of an optional string: absent, `null` and `""` are falsy. */
  predicate Truthy(v: Option<string>) { v.Some? && v.value != "" }

  /** ASCII upper case to lower case; every other character is left alone. */
  function LowerChar(c: char): char {
    if 'A' <= c <= 'Z' then (c as int + 32) as char else c
  }

  function Lower(s: string): (r: string)
    ensures |r| == |s| && forall i | 0 <= i < |s| :: r[i] == LowerChar(s[i])
  {
    seq(|s|, i requires 0 <= i < |s| => LowerChar(s[i]))
  }

  // ---------------------------------------------------------------------------
  // Substrings

  /** `pat` occurs in `s` starting at index `i`. */
  predicate OccursAt(pat: string, s: string, i: nat) {
    i + |pat| <= |s| && s[i..i + |pat|] == pat
  }

  predicate Contains(s: string, pat: string) {
    exists i | 0 <= i <= |s| :: OccursAt(pat, s, i)
  }

  /** The first index at or after `from` where `pat` occurs in `s`. */
  function IndexOfFrom(s: string, pat: string, from: nat): (r: Option<nat>)
    requires from <= |s|
    ensures r.Some? ==> from <= r.value && OccursAt(pat, s, r.value)
    ensures r.Some? ==> forall j | from <= j < r.value :: !OccursAt(pat, s, j)
    ensures r.None? ==> forall j | from <= j <= |s| :: !OccursAt(pat, s, j)
    decreases |s| - from
  {
    if OccursAt(pat, s, from) then Some(from)
    else if from == |s| then None
    else IndexOfFrom(s, pat, from + 1)
  }

  function IndexOf(s: string, pat: string): (r: Option<nat>)
    ensures r.None? <==> !Contains(s, pat)
  {
    IndexOfFrom(s, pat, 0)
  }

  // ---------------------------------------------------------------------------
  // Join (JavaScript `Array.prototype.join`, PHP `implode`) and split (PHP `explode`)

  function Join(parts: seq<string>, sep: string): string {
    if parts == [] then ""
    else if |parts| == 1 then parts[0]
    else parts[0] + sep + Join(parts[1..], sep)
  }

  /** Cuts `s` at every occurrence of `sep`, scanning left to right; `Split("", sep) == [""]`. */
  function Split(s: string, sep: string): (r: seq<string>)
    requires |sep| > 0
    ensures |r| > 0
    decreases |s|
  {
    match IndexOf(s, sep)
    case None => [s]
    case Some(i) => [s[..i]] + Split(s[i + |sep|..], sep)
  }

  /** In `x + sep`, the first occurrence of `sep` is the appended one. */
  predicate EndsCleanly(x: string, sep: string) {
    forall j | 0 <= j < |x| :: !OccursAt(sep, x + sep, j)
  }

  lemma FirstOccurrenceAfterCleanPart(x: string, sep: string, rest: string)
    requires |sep| > 0 && EndsCleanly(x, sep)
    ensures IndexOf(x + sep + rest, sep) == Some(|x|)
  {
    var s := x + sep + rest;
    assert OccursAt(sep, s, |x|) by { assert s[|x|..|x| + |sep|] == sep; }
    forall j | 0 <= j < |x|
      ensures !OccursAt(sep, s, j)
    {
      assert !OccursAt(sep, x + sep, j);
      assert s[j..j + |sep|] == (x + sep)[j..j + |sep|];
    }
    var r := IndexOf(s, sep);
    assert r.Some?;
  }

  lemma CleanPartHasNoSeparator(x: string, sep: string)
    requires |sep| > 0 && EndsCleanly(x, sep)
    ensures !Contains(x, sep)
  {
    forall j | 0 <= j <= |x|
      ensures !OccursAt(sep, x, j)
    {
      if j + |sep| <= |x| {
        assert !OccursAt(sep, x + sep, j);
        assert (x + sep)[j..j + |sep|] == x[j..j + |sep|];
      }
    }
  }

  /** Splitting a joined list on its separator gives the list back when every part
      ends cleanly (for the last part: does not contain the separator). */
  lemma {:induction false} SplitJoin(parts: seq<string>, sep: string)
    requires |sep| > 0 && |parts| > 0
    requires forall k | 0 <= k < |parts| :: EndsCleanly(parts[k], sep)
    ensures Split(Join(parts, sep), sep) == parts
  {
    if |parts| == 1 {
      CleanPartHasNoSeparator(parts[0], sep);
    } else {
      var rest := Join(parts[1..], sep);
      FirstOccurrenceAfterCleanPart(parts[0], sep, rest);
      var s := parts[0] + sep + rest;
      assert s[..|parts[0]|] == parts[0];
      assert s[|parts[0]| + |sep|..] == rest;
      SplitJoin(parts[1..], sep);
    }
  }

  /** A part without `", "` ends cleanly before a `", "` separator. */
  lemma CommaSpaceClean(x: string)
    requires !Contains(x, ", ")
    ensures EndsCleanly(x, ", ")
  {
    forall j | 0 <= j < |x|
      ensures !OccursAt(", ", x + ", ", j)
    {
      var s := x + ", ";
      if j + 1 < |x| {
        assert !OccursAt(", ", x, j);
        assert s[j..j + 2] == x[j..j + 2];
      } else {
        assert s[j + 1] == ',';
      }
    }
  }

  /** A part without the character `c` ends cleanly before a one-character separator `[c]`. */
  lemma SingleCharClean(x: string, c: char)
    requires c !in x
    ensures EndsCleanly(x, [c])
  {
    forall j | 0 <= j < |x|
      ensures !OccursAt([c], x + [c], j)
    {
      assert (x + [c])[j..j + 1] == [x[j]];
    }
  }

  // ---------------------------------------------------------------------------
  // Decimal printing (PHP int-to-string coercion, JavaScript template interpolation of an integer)

  function DigitChar(d: nat): (c: char)
    requires d < 10
    ensures IsDigit(c)
  {
    ('0' as int + d) as char
  }

  function DigitValue(c: char): (d: nat)
    requires IsDigit(c)
    ensures d < 10
  {
    c as int - '0' as int
  }

  function NatToString(n: nat): (s: string)
    ensures |s| > 0 && AllDigits(s)
  {
    if n < 10 then [DigitChar(n)] else NatToString(n / 10) + [DigitChar(n % 10)]
  }

  function IntToString(i: int): string {
    if i < 0 then "-" + NatToString(-i) else NatToString(i)
  }

  /** The value of a digit string read from left to right. */
  function DigitsValue(s: string): nat
    requires AllDigits(s)
  {
    if s == [] then 0 else DigitsValue(s[..|s| - 1]) * 10 + DigitValue(s[|s| - 1])
  }

  lemma {:induction false} DigitsValueOfNatToString(n: nat)
    ensures DigitsValue(NatToString(n)) == n
  {
    if n >= 10 {
      var s := NatToString(n);
      assert s[..|s| - 1] == NatToString(n / 10);
      DigitsValueOfNatToString(n / 10);
    }
  }

  /** An integer literal: an optional sign and one or more digits.
      `None` when the text is not such a literal. */
  function ParseInteger(s: string): Option<int> {
    if |s| > 1 && s[0] == '-' && AllDigits(s[1..]) then Some(-(DigitsValue(s[1..]) as int))
    else if |s| > 1 && s[0] == '+' && AllDigits(s[1..]) then Some(DigitsValue(s[1..]))
    else if |s| > 0 && AllDigits(s) then Some(DigitsValue(s))
    else None
  }

  lemma ParseIntegerOfIntToString(i: int)
    ensures ParseInteger(IntToString(i)) == Some(i)
  {
    if i < 0 {
      var s := IntToString(i);
      assert s[1..] == NatToString(-i);
      DigitsValueOfNatToString(-i);
    } else {
      DigitsValueOfNatToString(i);
    }
  }

  // ---------------------------------------------------------------------------
  // JavaScript parseInt (radix 10)

  /** A JavaScript number produced by parseInt: an integer or NaN. */
  datatype JsInt = Int(value: int) | NaN

  function TrimStart(s: string): (r: string)
    ensures |r| <= |s| && r == s[|s| - |r|..]
    ensures r != [] ==> !IsWhitespace(r[0])
  {
    if s != [] && IsWhitespace(s[0]) then TrimStart(s[1..]) else s
  }

  /** The longest prefix of `s` made of digits. */
  function DigitPrefix(s: string): (r: string)
    ensures AllDigits(r) && r <= s
    ensures |r| < |s| ==> !IsDigit(s[|r|])
  {
    if s != [] && IsDigit(s[0]) then [s[0]] + DigitPrefix(s[1..]) else []
  }

  /** parseInt(s): skips leading white space, reads an optional sign and the longest run of
      digits after it; NaN when that run is empty. */
  function ParseIntPrefix(s: string): JsInt {
    var t := TrimStart(s);
    var negative := t != [] && t[0] == '-';
    var u := if t != [] && (t[0] == '-' || t[0] == '+') then t[1..] else t;
    var d := DigitPrefix(u);
    if d == [] then NaN
    else if negative then Int(-(DigitsValue(d) as int))
    else Int(DigitsValue(d))
  }

  lemma DigitPrefixOfDigits(s: string)
    requires AllDigits(s)
    ensures DigitPrefix(s) == s
  {
    if s != [] {
      DigitPrefixOfDigits(s[1..]);
      assert s == [s[0]] + s[1..];
    }
  }

  /** parseInt reads back what decimal printing of a natural number wrote. */
  lemma ParseIntPrefixOfNatToString(n: nat)
    ensures ParseIntPrefix(NatToString(n)) == Int(n)
  {
    var s := NatToString(n);
    assert IsDigit(s[0]);
    assert TrimStart(s) == s;
    assert !(s[0] == '-' || s[0] == '+');
    DigitPrefixOfDigits(s);
    DigitsValueOfNatToString(n);
  }
}
