/** The pieces of JavaScript string and number behaviour the normaliser relies on:
    `substr`, `||` on strings, the `\d` and `\s` character classes, ASCII case mapping,
    a case-insensitive substring search (a regular expression with the `i` flag and no
    anchors), and `parseInt(x, 10)`. */
module Js {

  datatype Option<+T> = None | Some(value: T)

  /** The outcome of a step that can throw a TypeError (a property read on `undefined`). */
  datatype Outcome<+T> = Ok(value: T) | Thrown

  /** A JavaScript number as `Date.parse` and `parseInt` produce it: an integer or NaN. */
  datatype Num = Finite(n: int) | NaN

  function Min(a: int, b: int): int { if a <= b then a else b }

  /** `s.substr(start, length)` for non-negative arguments. */
  function Substr(s: string, start: nat, length: nat): (r: string)
    ensures |r| == if start >= |s| then 0 else Min(length, |s| - start)
    ensures start < |s| ==> r == s[start..start + |r|]
  {
    if start >= |s| then "" else s[start..Min(start + length, |s|)]
  }

  /** `s || fallback` for a string `s`: the empty string is falsy. */
  function OrElse(s: string, fallback: string): string
  {
    if s == "" then fallback else s
  }

  /** The class `\d` of a regular expression without the `u` flag. */
  predicate IsDigit(c: char) { '0' <= c <= '9' }

  predicate AllDigits(s: string) { forall i :: 0 <= i < |s| ==> IsDigit(s[i]) }

  /** The class `\s`: ECMAScript WhiteSpace and LineTerminator code points. */
  predicate IsSpace(c: char)
  {
    var n := c as int;
    n == 0x09 || n == 0x0A || n == 0x0B || n == 0x0C || n == 0x0D || n == 0x20 ||
    n == 0xA0 || n == 0x1680 || (0x2000 <= n <= 0x200A) || n == 0x2028 || n == 0x2029 ||
    n == 0x202F || n == 0x205F || n == 0x3000 || n == 0xFEFF
  }

  /** Drops the leading `\s` characters (what `\s*` consumes greedily). */
  function TrimStart(s: string): (r: string)
    ensures |r| <= |s| && r == s[|s| - |r|..]
    ensures forall i :: 0 <= i < |s| - |r| ==> IsSpace(s[i])
    ensures r == "" || !IsSpace(r[0])
  {
    if s != "" && IsSpace(s[0]) then TrimStart(s[1..]) else s
  }

  function AsciiLower(c: char): char
  {
    if 'A' <= c <= 'Z' then (c as int + 32) as char else c
  }

  function AsciiUpper(c: char): char
  {
    if 'a' <= c <= 'z' then (c as int - 32) as char else c
  }

  /** `s.toLowerCase()` restricted to ASCII letters; every other character is kept. */
  function ToLowerCase(s: string): (r: string)
    ensures |r| == |s|
    ensures forall i :: 0 <= i < |s| ==> r[i] == AsciiLower(s[i])
  {
    if s == "" then "" else [AsciiLower(s[0])] + ToLowerCase(s[1..])
  }

  /** Character equality under the `i` flag when the pattern character is ASCII.
      Without the `u` flag a non-ASCII character never canonicalises to an ASCII one,
      so comparing ASCII upper-case forms is exact. */
  predicate SameIgnoringCase(c: char, p: char) { AsciiUpper(c) == AsciiUpper(p) }

  predicate StartsWithIgnoringCase(s: string, pattern: string)
  {
    |pattern| <= |s| && forall i :: 0 <= i < |pattern| ==> SameIgnoringCase(s[i], pattern[i])
  }

  /** `/pattern/i.test(s)`: some position of `s` starts a case-insensitive match. */
  predicate ContainsIgnoringCase(s: string, pattern: string)
    decreases |s|
  {
    StartsWithIgnoringCase(s, pattern) || (s != "" && ContainsIgnoringCase(s[1..], pattern))
  }

  lemma {:induction false} ContainsIgnoringCaseAt(s: string, pattern: string, k: nat)
    requires k <= |s| && StartsWithIgnoringCase(s[k..], pattern)
    ensures ContainsIgnoringCase(s, pattern)
  {
    if k > 0 {
      assert s[1..][k - 1..] == s[k..];
      ContainsIgnoringCaseAt(s[1..], pattern, k - 1);
    }
  }

  /** The longest prefix of `s` made of decimal digits. */
  function DigitPrefix(s: string): (r: string)
    ensures |r| <= |s| && r == s[..|r|] && AllDigits(r)
    ensures |r| < |s| ==> !IsDigit(s[|r|])
  {
    if s != "" && IsDigit(s[0]) then [s[0]] + DigitPrefix(s[1..]) else ""
  }

  /** The value of a decimal digit string, most significant digit first. */
  function DigitsValue(ds: string): nat
    requires AllDigits(ds)
  {
    if ds == "" then 0 else 10 * DigitsValue(ds[..|ds| - 1]) + (ds[|ds| - 1] as int - '0' as int)
  }

  /** `parseInt(s, 10)`: skip `\s`, read an optional sign, then the longest run of digits;
      NaN when there is none. */
  function ParseInt(s: string): (r: Num)
    ensures AllDigits(s) && s != "" ==> r == Finite(DigitsValue(s))
  {
    var t := TrimStart(s);
    var negative := t != "" && t[0] == '-';
    var unsigned := if t != "" && (t[0] == '-' || t[0] == '+') then t[1..] else t;
    var ds := DigitPrefix(unsigned);
    assert AllDigits(s) && s != "" ==> t == s && unsigned == s && ds == s by {
      if AllDigits(s) && s != "" { DigitPrefixOfDigits(s); }
    }
    if ds == "" then NaN
    else
      var v: int := DigitsValue(ds);
      Finite(if negative then -v else v)
  }

  lemma {:induction false} DigitPrefixOfDigits(s: string)
    requires AllDigits(s)
    ensures DigitPrefix(s) == s
  {
    if s != "" { DigitPrefixOfDigits(s[1..]); }
  }
}
