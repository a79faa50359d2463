/**
 * The string operations the handlers apply to their inputs: Python's `str.strip()`
 * (whitespace as `str.isspace` defines it), ASCII lower-casing, and the decimal
 * rendering of an integer that f-strings produce.
 */
module Text {

  /** The characters Python's `str.isspace` accepts. */
  predicate IsSpace(c: char) {
    var n := c as int;
    (9 <= n <= 13) || (28 <= n <= 32) || n == 0x85 || n == 0xA0 || n == 0x1680
    || (0x2000 <= n <= 0x200A) || n == 0x2028 || n == 0x2029 || n == 0x202F
    || n == 0x205F || n == 0x3000
  }

  predicate AllSpace(s: string) {
    forall k :: 0 <= k < |s| ==> IsSpace(s[k])
  }

  /** Length of the whitespace prefix of `s`. */
  function LeadingSpaces(s: string): (n: nat)
    ensures n <= |s|
    ensures AllSpace(s[..n])
    ensures n < |s| ==> !IsSpace(s[n])
  {
    if s == [] || !IsSpace(s[0]) then 0
    else
      var m := LeadingSpaces(s[1..]);
      assert s[..m + 1] == [s[0]] + s[1..][..m];
      m + 1
  }

  /**
   * `s.strip()`: `s` without its leading and trailing whitespace. The result is a
   * contiguous part of `s` whose removed prefix and suffix are all whitespace; it is
   * empty exactly when `s` is all whitespace, and otherwise starts and ends with a
   * non-whitespace character.
   */
  function Strip(s: string): (t: string)
    ensures |t| <= |s|
    ensures t == [] <==> AllSpace(s)
    ensures t != [] ==> !IsSpace(t[0]) && !IsSpace(t[|t| - 1])
    decreases |s|
  {
    if s != [] && IsSpace(s[0]) then
      var t := Strip(s[1..]);
      assert AllSpace(s[1..]) ==> AllSpace(s);
      t
    else if s != [] && IsSpace(s[|s| - 1]) then
      var t := Strip(s[..|s| - 1]);
      assert AllSpace(s[..|s| - 1]) ==> AllSpace(s);
      t
    else
      s
  }

  /**
   * What `strip()` removes: the result is the part of `s` after its leading
   * whitespace, and everything after the result is whitespace too.
   */
  lemma {:induction false} StripInfix(s: string)
    ensures LeadingSpaces(s) + |Strip(s)| <= |s|
    ensures Strip(s) == s[LeadingSpaces(s)..LeadingSpaces(s) + |Strip(s)|]
    ensures AllSpace(s[LeadingSpaces(s) + |Strip(s)|..])
    decreases |s|
  {
    if s != [] && IsSpace(s[0]) {
      StripInfix(s[1..]);
      InfixAfterFront(s, Strip(s[1..]), LeadingSpaces(s[1..]));
    } else if s != [] && IsSpace(s[|s| - 1]) {
      StripInfix(s[..|s| - 1]);
      LeadingSpacesOfInit(s);
      InfixAfterBack(s, Strip(s[..|s| - 1]), LeadingSpaces(s));
    } else {
      assert s[0..|s|] == s;
    }
  }

  /** The step of StripInfix that drops a leading space. */
  lemma InfixAfterFront(s: string, t: string, lead: nat)
    requires s != [] && lead + |t| <= |s| - 1
    requires t == s[1..][lead..lead + |t|] && AllSpace(s[1..][lead + |t|..])
    ensures t == s[lead + 1..lead + 1 + |t|] && AllSpace(s[lead + 1 + |t|..])
  {
    assert s[1..][lead + |t|..] == s[lead + 1 + |t|..];
  }

  /** The step of StripInfix that drops a trailing space. */
  lemma InfixAfterBack(s: string, t: string, lead: nat)
    requires s != [] && IsSpace(s[|s| - 1]) && lead + |t| <= |s| - 1
    requires t == s[..|s| - 1][lead..lead + |t|] && AllSpace(s[..|s| - 1][lead + |t|..])
    ensures t == s[lead..lead + |t|] && AllSpace(s[lead + |t|..])
  {
    assert s[lead + |t|..] == s[..|s| - 1][lead + |t|..] + [s[|s| - 1]];
  }

  /** Dropping a trailing character leaves the leading whitespace alone unless nothing else is left. */
  lemma {:induction false} LeadingSpacesOfInit(s: string)
    requires s != [] && !AllSpace(s[..|s| - 1])
    ensures LeadingSpaces(s[..|s| - 1]) == LeadingSpaces(s)
    decreases |s|
  {
    var init := s[..|s| - 1];
    if IsSpace(s[0]) {
      assert init[0] == s[0];
      assert s[1..][..|s[1..]| - 1] == init[1..];
      assert !AllSpace(init[1..]);
      LeadingSpacesOfInit(s[1..]);
    }
  }

  /** Stripping is idempotent: a stripped card id strips to itself. */
  lemma StripIdempotent(s: string)
    ensures Strip(Strip(s)) == Strip(s)
  {
  }

  /** ASCII lower-casing of one character. */
  function LowerChar(c: char): char {
    if IsUpper(c) then (c as int + 32) as char else c
  }

  predicate IsUpper(c: char) {
    'A' <= c <= 'Z'
  }

  /**
   * ASCII lower-casing (`str.lower()` restricted to ASCII letters): no upper-case
   * letter is left, each upper-case letter becomes its lower-case partner 32 code
   * points up, and every other character is kept in place.
   */
  function Lower(s: string): (t: string)
    ensures |t| == |s|
    ensures forall k :: 0 <= k < |t| ==> !IsUpper(t[k])
    ensures forall k :: 0 <= k < |s| && !IsUpper(s[k]) ==> t[k] == s[k]
    ensures forall k :: 0 <= k < |s| && IsUpper(s[k]) ==> t[k] as int == s[k] as int + 32
  {
    seq(|s|, k requires 0 <= k < |s| => LowerChar(s[k]))
  }

  /** Lower-casing an already lower-cased text changes nothing. */
  lemma LowerIdempotent(s: string)
    ensures Lower(Lower(s)) == Lower(s)
  {
    var t := Lower(s);
    assert forall k :: 0 <= k < |t| ==> Lower(t)[k] == t[k];
  }

  function DigitChar(d: nat): char
    requires d < 10
  {
    "0123456789"[d]
  }

  /** Decimal digits of a natural number, as `str(n)` prints them. */
  function NatDecimal(n: nat): (s: string)
    ensures |s| >= 1
    decreases n
  {
    if n < 10 then [DigitChar(n)] else NatDecimal(n / 10) + [DigitChar(n % 10)]
  }

  /** `str(n)` for a signed integer. */
  function Decimal(n: int): string {
    if n < 0 then "-" + NatDecimal(-n) else NatDecimal(n)
  }
}
