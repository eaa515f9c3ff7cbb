/**
 * Character and string helpers standing in for the Python built-ins the
 * formatter calls: `str.strip`, `str.lower`, `str.isdigit`, `int(...)` on a
 * digit string and `str(n)` of a natural number. Only ASCII is modelled.
 */
module Text {

  /** The characters Python's `str.isspace` and the regex class `\s` accept, restricted to ASCII. */
  const Whitespace: set<char> :=
    {' ', '\t', '\n', '\r', '\U{000B}', '\U{000C}', '\U{001C}', '\U{001D}', '\U{001E}', '\U{001F}'}

  predicate IsSpace(c: char) {
    c in Whitespace
  }

  function Last<T>(s: seq<T>): T
    requires s != []
  {
    s[|s| - 1]
  }

  function Init<T>(s: seq<T>): seq<T>
    requires s != []
  {
    s[..|s| - 1]
  }

  /** Length of the longest prefix of `s` made only of characters in `cs`. */
  function LeadLength(s: string, cs: set<char>): (n: nat)
    ensures n <= |s|
    ensures forall k :: 0 <= k < n ==> s[k] in cs
    ensures n < |s| ==> s[n] !in cs
  {
    if s == [] || s[0] !in cs then 0 else 1 + LeadLength(s[1..], cs)
  }

  /** Length of the longest suffix of `s` made only of characters in `cs`. */
  function TrailLength(s: string, cs: set<char>): (n: nat)
    ensures n <= |s|
    ensures forall k :: |s| - n <= k < |s| ==> s[k] in cs
    ensures n < |s| ==> s[|s| - 1 - n] !in cs
  {
    if s == [] || Last(s) !in cs then 0 else 1 + TrailLength(Init(s), cs)
  }

  /**
   * Python's `s.strip(chars)`: the slice of `s` left once every leading and
   * every trailing character in `cs` is removed.
   */
  function TrimSet(s: string, cs: set<char>): (r: string)
    ensures |r| <= |s|
    ensures r == [] || (r[0] !in cs && Last(r) !in cs)
  {
    var i := LeadLength(s, cs);
    var rest := s[i..];
    var j := i + |rest| - TrailLength(rest, cs);
    assert rest[..|rest| - TrailLength(rest, cs)] == s[i..j];
    s[i..j]
  }

  /** `TrimSet` keeps a slice of `s`, and removes only characters in `cs` from either end. */
  lemma TrimSetIsSlice(s: string, cs: set<char>)
    ensures exists i, j ::
              && 0 <= i <= j <= |s| && TrimSet(s, cs) == s[i..j]
              && (forall k :: 0 <= k < i ==> s[k] in cs)
              && (forall k :: j <= k < |s| ==> s[k] in cs)
  {
    var i := LeadLength(s, cs);
    var rest := s[i..];
    var t := TrailLength(rest, cs);
    var j := |s| - t;
    assert rest[..|rest| - t] == s[i..j];
    assert TrimSet(s, cs) == s[i..j];
    forall k | j <= k < |s|
      ensures s[k] in cs
    {
      assert s[k] == rest[k - i];
    }
  }

  /** Python's `s.strip()` with no argument. */
  function Strip(s: string): (r: string)
    ensures |r| <= |s|
    ensures r == [] || (!IsSpace(r[0]) && !IsSpace(Last(r)))
  {
    TrimSet(s, Whitespace)
  }

  /** A string whose two ends are outside `cs` is left alone by `TrimSet`. */
  lemma TrimSetKeeps(s: string, cs: set<char>)
    requires s == [] || (s[0] !in cs && Last(s) !in cs)
    ensures TrimSet(s, cs) == s
  {
    if s != [] {
      assert LeadLength(s, cs) == 0;
      assert TrailLength(s, cs) == 0;
    }
  }

  /** Stripping twice is stripping once. */
  lemma StripIdempotent(s: string)
    ensures Strip(Strip(s)) == Strip(s)
  {
    TrimSetKeeps(Strip(s), Whitespace);
  }

  predicate IsDigit(c: char) {
    '0' <= c <= '9'
  }

  /** Python's `s.isdigit()` on ASCII: non-empty and made of digits only. */
  predicate IsDigits(s: string) {
    s != [] && forall k :: 0 <= k < |s| ==> IsDigit(s[k])
  }

  predicate IsUpper(c: char) {
    'A' <= c <= 'Z'
  }

  function LowerChar(c: char): (d: char)
    ensures !IsUpper(d)
    ensures IsSpace(d) <==> IsSpace(c)
    ensures IsUpper(c) || d == c
    ensures IsUpper(c) ==> d as int == c as int + 32
  {
    if IsUpper(c) then (c as int - 'A' as int + 'a' as int) as char else c
  }

  /** Python's `s.lower()` on ASCII letters. */
  function Lower(s: string): (r: string)
    ensures |r| == |s|
    ensures forall k :: 0 <= k < |s| ==> r[k] == LowerChar(s[k])
  {
    seq(|s|, i requires 0 <= i < |s| => LowerChar(s[i]))
  }

  /** `s` spells the lower-case `word` letter for letter, ignoring the case of ASCII letters. */
  predicate SameLetters(s: string, word: string) {
    |s| == |word| && forall i :: 0 <= i < |s| ==> LowerChar(s[i]) == word[i]
  }

  /** No upper-case ASCII letter. */
  predicate IsLowerCase(s: string) {
    forall k :: 0 <= k < |s| ==> !IsUpper(s[k])
  }

  /** A string with no white space at either end. */
  predicate IsTrimmed(s: string) {
    s == [] || (!IsSpace(s[0]) && !IsSpace(Last(s)))
  }

  lemma LowerKeepsTrimmed(s: string)
    requires IsTrimmed(s)
    ensures IsTrimmed(Lower(s)) && IsLowerCase(Lower(s))
  {
  }

  function DigitValue(c: char): (d: nat)
    requires IsDigit(c)
    ensures d < 10
  {
    c as int - '0' as int
  }

  function DigitChar(d: nat): (c: char)
    requires d < 10
    ensures IsDigit(c) && DigitValue(c) == d
  {
    ('0' as int + d) as char
  }

  /** Python's `int(s)` on a string of ASCII digits. */
  function ValueOf(s: string): nat
    requires forall k :: 0 <= k < |s| ==> IsDigit(s[k])
  {
    if s == [] then 0 else 10 * ValueOf(Init(s)) + DigitValue(Last(s))
  }

  /** Python's `str(n)` for a natural number: decimal digits, no leading zero. */
  function Decimal(n: nat): (r: string)
    ensures IsDigits(r)
    ensures r[0] == '0' ==> n == 0 && |r| == 1
  {
    if n < 10 then [DigitChar(n)] else Decimal(n / 10) + [DigitChar(n % 10)]
  }

  /** `int(str(n)) == n`: reading back the decimal text of a number gives the number. */
  lemma {:induction false} DecimalRoundTrip(n: nat)
    ensures ValueOf(Decimal(n)) == n
  {
    if n >= 10 {
      DecimalRoundTrip(n / 10);
      assert Init(Decimal(n)) == Decimal(n / 10);
    }
  }
}
