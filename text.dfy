/** String operations the chat code relies on, over `seq<char>`: trimming,
    ASCII case mapping, substring search and decimal rendering. Locale- and
    Unicode-aware behaviour of the runtime libraries is narrowed to ASCII. */
module Text {
  import opened Wrappers

  /** The ASCII characters JavaScript's `trim()` removes: tab, line feed,
      vertical tab, form feed, carriage return and space. */
  predicate IsSpace(c: char) {
    c == ' ' || c == '\t' || c == '\n' || c == '\r' || c == '\U{000B}' || c == '\U{000C}'
  }

  function TrimStart(s: string): (r: string)
    ensures |r| <= |s| && r == s[|s| - |r|..]
    ensures forall i :: 0 <= i < |s| - |r| ==> IsSpace(s[i])
    ensures r == [] || !IsSpace(r[0])
  {
    if s == [] || !IsSpace(s[0]) then s else TrimStart(s[1..])
  }

  function TrimEnd(s: string): (r: string)
    ensures |r| <= |s| && r == s[..|r|]
    ensures forall i :: |r| <= i < |s| ==> IsSpace(s[i])
    ensures r == [] || !IsSpace(r[|r| - 1])
  {
    if s == [] || !IsSpace(s[|s| - 1]) then s else TrimEnd(s[..|s| - 1])
  }

  /** `String.prototype.trim`: the longest infix with no whitespace at either end. */
  function Trim(s: string): (r: string)
    ensures r == [] || (!IsSpace(r[0]) && !IsSpace(r[|r| - 1]))
    ensures r == [] <==> forall i :: 0 <= i < |s| ==> IsSpace(s[i])
  {
    var t := TrimStart(s);
    assert forall i :: 0 <= i < |t| ==> t[i] == s[|s| - |t| + i];
    TrimEnd(t)
  }

  /** A string that JavaScript's `trim()` empties. */
  predicate IsBlank(s: string) {
    forall i :: 0 <= i < |s| ==> IsSpace(s[i])
  }

  /** The ASCII characters Java's `Character.isWhitespace` accepts: those
      of `IsSpace` and the four separators U+001C to U+001F. */
  predicate IsJavaWhitespace(c: char) {
    IsSpace(c) || '\U{001C}' <= c <= '\U{001F}'
  }

  /** Java's `String.isBlank`: every character is whitespace. */
  predicate IsJavaBlank(s: string) {
    forall i :: 0 <= i < |s| ==> IsJavaWhitespace(s[i])
  }

  /** A string `trim()` empties is blank for Java too, but not the other way
      round: "\U{001C}" is blank for Java and survives `trim()`. */
  lemma BlankIsJavaBlank(s: string)
    ensures IsBlank(s) ==> IsJavaBlank(s)
    ensures IsJavaBlank(['\U{001C}']) && !IsBlank(['\U{001C}'])
  {
    assert !IsSpace(['\U{001C}'][0]);
  }

  /** A string that is not blank trims to a non-empty string with no
      whitespace at either end. */
  lemma TrimNotBlank(s: string)
    requires !IsBlank(s)
    ensures var t := Trim(s); t != "" && !IsSpace(t[0]) && !IsSpace(t[|t| - 1])
  {
    var i :| 0 <= i < |s| && !IsSpace(s[i]);
  }

  function LowerChar(c: char): char {
    if 'A' <= c <= 'Z' then (c as int + 32) as char else c
  }

  function UpperChar(c: char): char {
    if 'a' <= c <= 'z' then (c as int - 32) as char else c
  }

  /** `toLowerCase()` on ASCII. */
  function Lower(s: string): (r: string)
    ensures |r| == |s| && forall i :: 0 <= i < |s| ==> r[i] == LowerChar(s[i])
  {
    seq(|s|, i requires 0 <= i < |s| => LowerChar(s[i]))
  }

  /** `toUpperCase()` on ASCII. */
  function Upper(s: string): (r: string)
    ensures |r| == |s| && forall i :: 0 <= i < |s| ==> r[i] == UpperChar(s[i])
  {
    seq(|s|, i requires 0 <= i < |s| => UpperChar(s[i]))
  }

  lemma LowerOfUpper(s: string)
    ensures Lower(Upper(s)) == Lower(s)
  {
  }

  lemma LowerIdempotent(s: string)
    ensures Lower(Lower(s)) == Lower(s)
  {
  }

  /** Java's `equalsIgnoreCase`, on ASCII. */
  predicate EqualsIgnoreCase(a: string, b: string) {
    Lower(a) == Lower(b)
  }

  predicate OccursAt(s: string, i: int, sub: string) {
    0 <= i && i + |sub| <= |s| && s[i..i + |sub|] == sub
  }

  /** `contains` (Java) / `includes` (JavaScript). */
  predicate Contains(s: string, sub: string) {
    exists i :: 0 <= i <= |s| - |sub| && OccursAt(s, i, sub)
  }

  /** The first occurrence of `sub` in `s` at or after `from`. */
  function IndexOfFrom(s: string, sub: string, from: nat): (r: Option<nat>)
    ensures r.Some? ==> from <= r.value && OccursAt(s, r.value, sub)
    ensures r.Some? ==> forall k :: from <= k < r.value ==> !OccursAt(s, k, sub)
    ensures r.None? ==> forall k :: from <= k ==> !OccursAt(s, k, sub)
    decreases |s| - from
  {
    if from + |sub| > |s| then None
    else if s[from..from + |sub|] == sub then Some(from)
    else IndexOfFrom(s, sub, from + 1)
  }

  lemma IndexOfFinds(s: string, sub: string)
    ensures Contains(s, sub) <==> IndexOfFrom(s, sub, 0).Some?
  {
    var r := IndexOfFrom(s, sub, 0);
    if r.Some? {
      assert OccursAt(s, r.value, sub);
    }
  }

  function Digit(d: nat): char
    requires d < 10
  {
    "0123456789"[d]
  }

  function DigitValue(c: char): nat {
    if '0' <= c <= '9' then c as int - '0' as int else 0
  }

  /** `String.valueOf(int)` for a non-negative value. */
  function DecimalString(n: nat): (r: string)
    ensures |r| >= 1
    ensures forall i :: 0 <= i < |r| ==> '0' <= r[i] <= '9'
    ensures n > 0 ==> r[0] != '0'
  {
    if n < 10 then [Digit(n)] else DecimalString(n / 10) + [Digit(n % 10)]
  }

  /** Reads a string of decimal digits back as a number. */
  function ParseDecimal(s: string): nat {
    if s == [] then 0 else ParseDecimal(s[..|s| - 1]) * 10 + DigitValue(s[|s| - 1])
  }

  lemma {:induction false} ParseDecimalString(n: nat)
    ensures ParseDecimal(DecimalString(n)) == n
  {
    var r := DecimalString(n);
    if n >= 10 {
      var d := DecimalString(n / 10);
      assert r == d + [Digit(n % 10)];
      assert r[..|r| - 1] == d && r[|r| - 1] == Digit(n % 10);
      ParseDecimalString(n / 10);
      DigitRoundTrip(n % 10);
      assert ParseDecimal(r) == ParseDecimal(d) * 10 + DigitValue(Digit(n % 10));
    } else {
      DigitRoundTrip(n);
    }
  }

  lemma DigitRoundTrip(d: nat)
    requires d < 10
    ensures DigitValue(Digit(d)) == d
  {
  }

  function Pow10(k: nat): (p: nat)
    ensures p >= 1
  {
    if k == 0 then 1 else 10 * Pow10(k - 1)
  }

  /** A number with k + 1 digits is rendered with k + 1 characters. */
  lemma {:induction false} DecimalStringLength(n: nat, k: nat)
    requires Pow10(k) <= n < Pow10(k + 1)
    ensures |DecimalString(n)| == k + 1
  {
    if k > 0 {
      assert Pow10(k) == 10 * Pow10(k - 1);
      assert Pow10(k + 1) == 10 * Pow10(k);
      DecimalStringLength(n / 10, k - 1);
    }
  }

  lemma LowerCharKeepsSpace(c: char)
    ensures IsSpace(LowerChar(c)) <==> IsSpace(c)
  {
  }

  /** Lowercasing keeps a trailing space, so a string ending in one and a
      string that does not never lowercase to the same string. */
  lemma LowerDiffersAtEnd(a: string, b: string)
    requires a != [] && IsSpace(a[|a| - 1])
    requires b == [] || !IsSpace(b[|b| - 1])
    ensures Lower(a) != Lower(b)
  {
    LowerCharKeepsSpace(a[|a| - 1]);
    if |b| == |a| {
      LowerCharKeepsSpace(b[|b| - 1]);
      assert Lower(a)[|a| - 1] != Lower(b)[|b| - 1];
    }
  }

  /** `r` is the lowercase form of `t`: non-empty, already lowercase, with
      no space at either end, and equal to `t` ignoring case. */
  predicate NormalisedFrom(r: string, t: string) {
    && r != "" && Lower(r) == r
    && !IsSpace(r[0]) && !IsSpace(r[|r| - 1])
    && EqualsIgnoreCase(r, t)
  }

  /** Lowercasing a trimmed, non-empty name keeps it trimmed and non-empty. */
  lemma LowerTrimmed(t: string)
    requires t != "" && !IsSpace(t[0]) && !IsSpace(t[|t| - 1])
    ensures NormalisedFrom(Lower(t), t)
  {
    var r := Lower(t);
    LowerIdempotent(t);
    assert r[0] == LowerChar(t[0]) && r[|r| - 1] == LowerChar(t[|t| - 1]);
    LowerCharKeepsSpace(t[0]);
    LowerCharKeepsSpace(t[|t| - 1]);
  }
}
