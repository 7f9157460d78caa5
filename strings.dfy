/** Text primitives the command pipeline relies on: Python's `str.lower()` (on
    ASCII letters), `str.strip()`, the `in` operator on strings, the digits `\d`
    recognises, `int()` of a digit string and `str()` of a natural number. */
module Strings {

  datatype Option<+T> = None | Some(value: T) {
    /** `d.get(key, default)` style fallback */
    function GetOr(default: T): T {
      if Some? then value else default
    }
  }

  // ---------------------------------------------------------------- lower()

  predicate IsUpper(c: char) {
    'A' <= c <= 'Z'
  }

  function LowerChar(c: char): char {
    if IsUpper(c) then (c as int + 32) as char else c
  }

  /** The ASCII part of Python's `str.lower()`. */
  function Lower(s: string): string {
    seq(|s|, k requires 0 <= k < |s| => LowerChar(s[k]))
  }

  /** Lowering keeps the length, leaves no upper-case letter behind and touches
      nothing but upper-case letters; doing it twice is doing it once. */
  lemma LowerSpec(s: string)
    ensures |Lower(s)| == |s|
    ensures forall k :: 0 <= k < |s| ==> !IsUpper(Lower(s)[k])
    ensures forall k :: 0 <= k < |s| && !IsUpper(s[k]) ==> Lower(s)[k] == s[k]
    ensures Lower(Lower(s)) == Lower(s)
  {
  }

  // ---------------------------------------------------------------- strip()

  /** Python's `str.isspace()`. */
  predicate IsSpace(c: char) {
    || c == ' '
    || ('\t' <= c <= '\r')
    || ('\U{1C}' <= c <= '\U{1F}')
    || c == '\U{85}' || c == '\U{A0}' || c == '\U{1680}'
    || ('\U{2000}' <= c <= '\U{200A}')
    || c == '\U{2028}' || c == '\U{2029}' || c == '\U{202F}' || c == '\U{205F}' || c == '\U{3000}'
  }

  /** The first index from `i` on that holds no white space (or `|s|`). */
  function SkipSpace(s: string, i: nat): (a: nat)
    requires i <= |s|
    ensures i <= a <= |s|
    ensures forall k :: i <= k < a ==> IsSpace(s[k])
    ensures a == |s| || !IsSpace(s[a])
    decreases |s| - i
  {
    if i < |s| && IsSpace(s[i]) then SkipSpace(s, i + 1) else i
  }

  /** The end of the text in `s[a..j]` once trailing white space is cut. */
  function SkipSpaceBack(s: string, a: nat, j: nat): (b: nat)
    requires a <= j <= |s|
    ensures a <= b <= j
    ensures forall k :: b <= k < j ==> IsSpace(s[k])
    ensures b == a || !IsSpace(s[b - 1])
    decreases j
  {
    if a < j && IsSpace(s[j - 1]) then SkipSpaceBack(s, a, j - 1) else j
  }

  /** `s` is white space up to `a`, then `r`, then white space. */
  predicate Framed(s: string, r: string, a: int) {
    && 0 <= a <= |s| - |r| && r == s[a..a + |r|]
    && (forall k :: 0 <= k < a ==> IsSpace(s[k]))
    && (forall k :: a + |r| <= k < |s| ==> IsSpace(s[k]))
  }

  /** Python's `str.strip()`: `s` is white space, then the result, then white
      space, and the result neither starts nor ends with white space. */
  function Strip(s: string): (r: string)
    ensures exists a :: Framed(s, r, a)
    ensures r == [] || (!IsSpace(r[0]) && !IsSpace(r[|r| - 1]))
  {
    var a := SkipSpace(s, 0);
    var b := SkipSpaceBack(s, a, |s|);
    var r := s[a..b];
    assert r == s[a..a + |r|];
    assert r != [] ==> r[0] == s[a] && r[|r| - 1] == s[b - 1];
    assert Framed(s, r, a);
    r
  }

  /** Where the stripped text sits in its input. */
  lemma StripSlice(s: string)
    ensures var a := SkipSpace(s, 0);
      a + |Strip(s)| <= |s| && Strip(s) == s[a..a + |Strip(s)|]
  {
  }

  /** A string that neither starts nor ends with white space is its own strip. */
  lemma StripOfStripped(s: string)
    requires s == [] || (!IsSpace(s[0]) && !IsSpace(s[|s| - 1]))
    ensures Strip(s) == s
  {
    assert SkipSpace(s, 0) == 0;
    assert SkipSpaceBack(s, 0, |s|) == |s|;
  }

  // ---------------------------------------------------------------- `in`

  predicate OccursAt(s: string, sub: string, i: int) {
    0 <= i && i + |sub| <= |s| && s[i..i + |sub|] == sub
  }

  /** Python's `sub in s` for strings. */
  predicate Contains(s: string, sub: string) {
    exists i :: 0 <= i <= |s| - |sub| && OccursAt(s, sub, i)
  }

  // ---------------------------------------------------------------- digits

  /** The decimal digits `\d` and `int()` are modelled on: ASCII, Arabic-Indic
      and Extended Arabic-Indic (Persian) digits. */
  predicate IsDigit(c: char) {
    || ('0' <= c <= '9')
    || ('\U{660}' <= c <= '\U{669}')
    || ('\U{6F0}' <= c <= '\U{6F9}')
  }

  predicate AllDigits(s: string) {
    forall k :: 0 <= k < |s| ==> IsDigit(s[k])
  }

  function DigitValue(c: char): (d: nat)
    requires IsDigit(c)
    ensures d < 10
  {
    if c <= '9' then c as int - '0' as int
    else if c <= '\U{669}' then c as int - 0x660
    else c as int - 0x6F0
  }

  /** `int(s)` for a non-empty string of digits, read left to right. */
  function ParseNat(s: string): nat
    requires AllDigits(s)
    decreases |s|
  {
    if s == [] then 0 else 10 * ParseNat(s[..|s| - 1]) + DigitValue(s[|s| - 1])
  }

  /** `int(s)` is zero exactly when every digit of `s` is a zero digit (so
      "00" and "۰" read as zero too). */
  lemma {:induction false} ParseNatZero(s: string)
    requires AllDigits(s)
    ensures ParseNat(s) == 0 <==> forall k :: 0 <= k < |s| ==> DigitValue(s[k]) == 0
  {
    if s != [] {
      var init := s[..|s| - 1];
      ParseNatZero(init);
      assert forall k :: 0 <= k < |init| ==> init[k] == s[k];
    }
  }

  function DigitChar(d: nat): (c: char)
    requires d < 10
    ensures '0' <= c <= '9' && IsDigit(c) && DigitValue(c) == d
  {
    ('0' as int + d) as char
  }

  /** `str(n)`: ASCII decimal digits without leading zero. */
  function NatToString(n: nat): (r: string)
    ensures |r| > 0 && AllDigits(r)
    ensures forall k :: 0 <= k < |r| ==> '0' <= r[k] <= '9'
    ensures r[0] == '0' <==> n == 0
    decreases n
  {
    if n < 10 then [DigitChar(n)] else NatToString(n / 10) + [DigitChar(n % 10)]
  }

  /** `int(str(n)) == n`. */
  lemma {:induction false} ParseNatToString(n: nat)
    ensures ParseNat(NatToString(n)) == n
    decreases n
  {
    var r := NatToString(n);
    if n < 10 {
      assert r[..|r| - 1] == [];
    } else {
      ParseNatToString(n / 10);
      assert r[..|r| - 1] == NatToString(n / 10);
    }
  }
}
