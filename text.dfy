/** The parts of Python's `str` that the program relies on: `lower()`,
    `strip()`, `isdigit()`, `int()` on a digit string, and the substring
    test `needle in hay`. */
module Text {

  // ---------------------------------------------------------------- lower()

  /** `str.lower` on one character, restricted to the ASCII letters. */
  function LowerChar(c: char): char {
    if 'A' <= c <= 'Z' then (c as int + 32) as char else c
  }

  /** `str.lower`, character by character (ASCII letters only). */
  function Lower(s: string): (r: string)
    ensures |r| == |s|
  {
    seq(|s|, i requires 0 <= i < |s| => LowerChar(s[i]))
  }

  // ---------------------------------------------------------------- strip()

  /** The characters for which Python's `str.isspace` holds, which are the
      characters `str.strip()` removes when called without arguments. */
  predicate IsSpace(c: char) {
    c == ' ' || '\t' <= c <= '\r' || '\U{1C}' <= c <= '\U{1F}'
    || c == '\U{85}' || c == '\U{A0}' || c == '\U{1680}'
    || '\U{2000}' <= c <= '\U{200A}' || c == '\U{2028}' || c == '\U{2029}'
    || c == '\U{202F}' || c == '\U{205F}' || c == '\U{3000}'
  }

  predicate AllSpace(s: string) {
    forall i :: 0 <= i < |s| ==> IsSpace(s[i])
  }

  /** Length of the longest all-whitespace prefix of `s`. */
  function LeadingSpace(s: string): (k: nat)
    ensures k <= |s|
    ensures forall i :: 0 <= i < k ==> IsSpace(s[i])
    ensures k < |s| ==> !IsSpace(s[k])
  {
    if s == [] || !IsSpace(s[0]) then 0 else 1 + LeadingSpace(s[1..])
  }

  /** Length of the longest all-whitespace suffix of `s`. */
  function TrailingSpace(s: string): (k: nat)
    ensures k <= |s|
    ensures forall i :: |s| - k <= i < |s| ==> IsSpace(s[i])
    ensures k < |s| ==> !IsSpace(s[|s| - k - 1])
  {
    if s == [] || !IsSpace(s[|s| - 1]) then 0 else 1 + TrailingSpace(s[..|s| - 1])
  }

  /** `str.strip()`: `s` without its leading and trailing whitespace.  The
      result is what is left between the longest whitespace prefix and the
      longest whitespace suffix; it is empty exactly when `s` is all
      whitespace, and otherwise it neither starts nor ends with whitespace. */
  function Strip(s: string): (r: string)
    ensures r == "" <==> AllSpace(s)
    ensures r != "" ==> !IsSpace(r[0]) && !IsSpace(r[|r| - 1])
    ensures r != "" ==> s == s[..LeadingSpace(s)] + r + s[|s| - TrailingSpace(s)..]
  {
    var i := LeadingSpace(s);
    if i == |s| then
      assert s[..i] == s;
      ""
    else
      var j := |s| - TrailingSpace(s);
      assert !IsSpace(s[i]);
      assert s == s[..i] + s[i..j] + s[j..];
      s[i..j]
  }

  /** Stripping twice strips nothing more: `strip` is idempotent. */
  lemma StripIdempotent(s: string)
    ensures Strip(Strip(s)) == Strip(s)
  {
    var r := Strip(s);
    if r != "" {
      assert LeadingSpace(r) == 0;
      assert TrailingSpace(r) == 0;
      assert r[0..|r|] == r;
    }
  }

  // ----------------------------------------------------- isdigit() and int()

  predicate IsDigit(c: char) {
    '0' <= c <= '9'
  }

  predicate AllDigits(s: string) {
    forall i :: 0 <= i < |s| ==> IsDigit(s[i])
  }

  /** `str.isdigit` over ASCII digits: at least one character, all digits. */
  predicate IsDigits(s: string) {
    |s| > 0 && AllDigits(s)
  }

  function DigitValue(c: char): (d: nat)
    requires IsDigit(c)
    ensures d < 10
  {
    c as int - '0' as int
  }

  function DigitChar(d: nat): (c: char)
    requires d < 10
    ensures IsDigit(c) && DigitValue(c) == d
  {
    ('0' as int + d) as char
  }

  /** `int(s)` for a string of decimal digits (leading zeros allowed). */
  function DigitsValue(s: string): nat
    requires AllDigits(s)
  {
    if s == [] then 0
    else 10 * DigitsValue(s[..|s| - 1]) + DigitValue(s[|s| - 1])
  }

  /** `str(n)`: the decimal rendering of a natural number, no leading zeros. */
  function Decimal(n: nat): (r: string)
    ensures IsDigits(r)
  {
    if n < 10 then [DigitChar(n)] else Decimal(n / 10) + [DigitChar(n % 10)]
  }

  /** `int(str(n)) == n`: reading back a rendered number gives the number. */
  lemma {:induction false} DecimalRoundTrip(n: nat)
    ensures DigitsValue(Decimal(n)) == n
  {
    if n >= 10 {
      var s := Decimal(n);
      assert s[..|s| - 1] == Decimal(n / 10);
      DecimalRoundTrip(n / 10);
    }
  }

  /** A digit string reads as zero exactly when every digit is `0`. */
  lemma {:induction false} ZeroIffAllZeros(s: string)
    requires AllDigits(s)
    ensures DigitsValue(s) == 0 <==> forall i :: 0 <= i < |s| ==> s[i] == '0'
  {
    if s != [] {
      var init := s[..|s| - 1];
      ZeroIffAllZeros(init);
      assert forall i :: 0 <= i < |init| ==> init[i] == s[i];
    }
  }

  // ------------------------------------------------------- substring test

  predicate StartsWith(s: string, prefix: string) {
    |prefix| <= |s| && s[..|prefix|] == prefix
  }

  predicate OccursAt(hay: string, needle: string, i: int) {
    0 <= i <= |hay| - |needle| && hay[i..i + |needle|] == needle
  }

  /** `needle in hay` for strings, scanning `hay` from the left. */
  predicate Contains(hay: string, needle: string)
    decreases |hay|
  {
    StartsWith(hay, needle) || (hay != [] && Contains(hay[1..], needle))
  }

  /** The scan finds `needle` exactly when it occurs at some position of `hay`. */
  lemma {:induction false} ContainsIffOccurs(hay: string, needle: string)
    ensures Contains(hay, needle) <==> exists i :: OccursAt(hay, needle, i)
  {
    if StartsWith(hay, needle) {
      assert OccursAt(hay, needle, 0);
    } else if hay == [] {
      assert |needle| > 0;
      assert forall i :: !OccursAt(hay, needle, i);
    } else {
      ContainsIffOccurs(hay[1..], needle);
      if exists i :: OccursAt(hay[1..], needle, i) {
        var i :| OccursAt(hay[1..], needle, i);
        assert hay[1..][i..i + |needle|] == hay[i + 1..i + 1 + |needle|];
        assert OccursAt(hay, needle, i + 1);
      }
      if exists i :: OccursAt(hay, needle, i) {
        var i :| OccursAt(hay, needle, i);
        assert i != 0;
        assert hay[1..][i - 1..i - 1 + |needle|] == hay[i..i + |needle|];
        assert OccursAt(hay[1..], needle, i - 1);
      }
    }
  }
}
