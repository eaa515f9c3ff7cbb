/**
 * Tool utilities (fusion_gcode_formatter.py:114-170): the N-number derived
 * from a tool change, the tool key read from a comment, and the header block
 * emitted for a tool. The two regular expressions of the source are
 * written out as matchers over ASCII text.
 */
module Tools {
  import opened Wrappers
  import opened Text

  /** A tool's attributes as read from the table: field name to text value. */
  type Entry = map<string, string>

  /** The tool table, indexed by trimmed lower-case key. */
  type ToolTable = map<string, Entry>

  const DigitChars: set<char> := {'0', '1', '2', '3', '4', '5', '6', '7', '8', '9'}

  /** The characters `[\s_\-]` accepts between `tool` and `key`. */
  const SepChars: set<char> := Whitespace + {'_', '-'}

  const Parens: set<char> := {'(', ')'}

  const RetractLine: string := "G30U0W0"
  const CoolantLine: string := "G140M08"
  const UnknownTool: string := "(UNKNOWN TOOL)"

  lemma DigitCharsAreDigits()
    ensures forall c :: c in DigitChars <==> IsDigit(c)
  {
  }

  // ---------------------------------------------------------------- n_from_tool

  /** `^T(\d+)`: the whole run of digits right after a leading `T`, when there is at least one. */
  function ToolDigits(s: string): (d: Option<string>)
    ensures d.Some? ==> IsDigits(d.value) && ['T'] + d.value <= s
    ensures d.Some? ==> 1 + |d.value| == |s| || !IsDigit(s[1 + |d.value|])
    ensures d.None? <==> !(|s| >= 2 && s[0] == 'T' && IsDigit(s[1]))
  {
    if |s| >= 2 && s[0] == 'T' && IsDigit(s[1]) then
      var n := LeadLength(s[1..], DigitChars);
      DigitCharsAreDigits();
      assert forall k :: 1 <= k < 1 + n ==> s[k] == s[1..][k - 1];
      assert ['T'] + s[1..1 + n] == s[..1 + n];
      Some(s[1..1 + n])
    else None
  }

  /**
   * `n_from_tool`: `N` followed by 100 times the number formed by the first
   * two digits of the tool number (the only digit when there is one), or
   * `N100` when the line does not start with `T` and a digit. The source's
   * `ValueError` fallback cannot be reached: the digits always parse.
   */
  function NFromTool(toolLine: string): (r: string)
    ensures |r| >= 2 && r[0] == 'N' && IsDigits(r[1..])
  {
    match ToolDigits(toolLine)
    case None => "N100"
    case Some(digits) =>
      var num := if |digits| >= 2 then ValueOf(digits[..2]) else ValueOf(digits);
      "N" + Decimal(num * 100)
  }

  /** The value of the first two digits of a digit string (of its only digit when it has one). */
  function LeadingPair(digits: string): (v: nat)
    requires IsDigits(digits)
    ensures v < 100
    ensures |digits| == 1 ==> v == DigitValue(digits[0])
    ensures |digits| >= 2 ==> v == 10 * DigitValue(digits[0]) + DigitValue(digits[1])
  {
    assert ValueOf([digits[0]]) == DigitValue(digits[0]) by {
      assert Init([digits[0]]) == [];
    }
    if |digits| >= 2 then
      assert Init(digits[..2]) == [digits[0]];
      assert Last(digits[..2]) == digits[1];
      ValueOf(digits[..2])
    else
      assert digits == [digits[0]];
      ValueOf(digits)
  }

  /** Without a leading tool number the N-number is `N100`, read back as 100. */
  lemma NFromFallback(toolLine: string)
    requires ToolDigits(toolLine).None?
    ensures NFromTool(toolLine) == "N100" && ValueOf(NFromTool(toolLine)[1..]) == 100
  {
    assert NFromTool(toolLine)[1..] == "100";
    assert Init("100") == "10" && Init("10") == "1" && Init("1") == "";
  }

  /** The N-number's digits read back as 100 times the first two tool digits. */
  lemma NFromToolValue(toolLine: string)
    requires ToolDigits(toolLine).Some?
    ensures ValueOf(NFromTool(toolLine)[1..]) == 100 * LeadingPair(ToolDigits(toolLine).value)
  {
    var digits := ToolDigits(toolLine).value;
    var v := LeadingPair(digits);
    DecimalRoundTrip(v * 100);
    assert NFromTool(toolLine)[1..] == Decimal(v * 100);
  }

  /** Every N-number is a multiple of 100 no larger than 9900. */
  lemma NFromToolRange(toolLine: string)
    ensures ValueOf(NFromTool(toolLine)[1..]) % 100 == 0
    ensures ValueOf(NFromTool(toolLine)[1..]) <= 9900
  {
    if ToolDigits(toolLine).None? {
      NFromFallback(toolLine);
    } else {
      NFromToolValue(toolLine);
    }
  }

  /** A `T` followed only by digits: the digits are the whole rest of the line. */
  lemma ToolDigitsAll(s: string)
    requires |s| >= 2 && s[0] == 'T' && IsDigits(s[1..])
    ensures ToolDigits(s) == Some(s[1..])
  {
    DigitCharsAreDigits();
    assert s[1..][0] == s[1];
    assert LeadLength(s[1..], DigitChars) == |s| - 1;
    assert s[1..1 + (|s| - 1)] == s[1..];
  }

  /** The N-number of a `T` followed only by digits. */
  lemma NFromDigitsOnly(s: string)
    requires |s| >= 2 && s[0] == 'T' && IsDigits(s[1..])
    ensures NFromTool(s) == "N" + Decimal(100 * LeadingPair(s[1..]))
  {
    ToolDigitsAll(s);
  }

  // The examples of the module's own documentation, and the spindle tool T0101.

  lemma NFromToolT0700()
    ensures NFromTool("T0700") == "N700"
  {
    assert "T0700"[1..] == "0700";
    NFromDigitsOnly("T0700");
    assert LeadingPair("0700") == 7;
    assert Decimal(700) == "700";
  }

  lemma NFromToolT0300()
    ensures NFromTool("T0300") == "N300"
  {
    assert "T0300"[1..] == "0300";
    NFromDigitsOnly("T0300");
    assert LeadingPair("0300") == 3;
    assert Decimal(300) == "300";
  }

  lemma NFromToolT0101()
    ensures NFromTool("T0101") == "N100"
  {
    assert "T0101"[1..] == "0101";
    NFromDigitsOnly("T0101");
    assert LeadingPair("0101") == 1;
    assert Decimal(100) == "100";
  }

  lemma NFromToolT7()
    ensures NFromTool("T7") == "N700"
  {
    assert "T7"[1..] == "7";
    NFromDigitsOnly("T7");
    assert LeadingPair("7") == 7;
    assert Decimal(700) == "700";
  }

  /** A line that does not start with a tool number gets the fallback N-number. */
  lemma NFromNonTool()
    ensures NFromTool("X12") == "N100"
    ensures NFromTool("T") == "N100"
    ensures NFromTool("TA1") == "N100"
  {
  }

  // ---------------------------------------------------------------- parse_tool_key

  /** Length of the text up to the first newline (all of it when there is none). */
  function LineLength(s: string): (n: nat)
    ensures n <= |s|
    ensures forall k :: 0 <= k < n ==> s[k] != '\n'
    ensures n < |s| ==> s[n] == '\n'
  {
    if s == [] || s[0] == '\n' then 0 else 1 + LineLength(s[1..])
  }

  /** Index of the last character of `s` that is not a newline, if there is one. */
  function LastNonNewline(s: string): (k: Option<nat>)
    ensures k.Some? ==> k.value < |s| && s[k.value] != '\n'
    ensures k.Some? ==> forall m :: k.value < m < |s| ==> s[m] == '\n'
    ensures k.None? ==> forall m :: 0 <= m < |s| ==> s[m] == '\n'
  {
    if s == [] then None
    else if Last(s) != '\n' then Some(|s| - 1)
    else LastNonNewline(Init(s))
  }

  /**
   * `\s*(.+)` matched at the start of `rest`: the text `(.+)` captures. `.`
   * matches anything but a newline. `\s*` takes all the leading white space
   * unless that leaves `.+` nothing to match; it then gives characters back
   * from the right until `.+` can start, and `.+` captures that one character.
   */
  function ValueGroup(rest: string): (g: Option<string>)
    ensures g.Some? ==> g.value != [] && forall k :: 0 <= k < |g.value| ==> g.value[k] != '\n'
    ensures g.None? ==> forall k :: 0 <= k < |rest| ==> rest[k] == '\n'
  {
    var w := LeadLength(rest, Whitespace);
    if w < |rest| then
      Some(rest[w..w + LineLength(rest[w..])])
    else
      match LastNonNewline(rest)
      case Some(k) => Some([rest[k]])
      case None => None
  }

  /** `key\s*[:=]\s*(.+)` at the start of `s`, `key` in any case. */
  function AfterSeparators(s: string): Option<string> {
    if |s| >= 3 && SameLetters(s[..3], "key") then
      var n := LeadLength(s[3..], Whitespace);
      if 3 + n < |s| && (s[3 + n] == ':' || s[3 + n] == '=') then ValueGroup(s[3 + n + 1..])
      else None
    else None
  }

  /**
   * `(?i)tool[\s_\-]*key\s*[:=]\s*(.+)` tried at position `p` of `content`:
   * the captured value when the pattern matches there. Only the last
   * `\s*(.+)` can backtrack: `k` cannot be taken by `[\s_\-]*`, nor `:`
   * or `=` by `\s*`.
   */
  function MatchAt(content: string, p: nat): Option<string>
    requires p <= |content|
  {
    if p + 4 <= |content| && SameLetters(content[p..p + 4], "tool") then
      var rest := content[p + 4..];
      AfterSeparators(rest[LeadLength(rest, SepChars)..])
    else None
  }

  /** `key_regex.search(content[p:])`: the value of the leftmost match at or after `p`. */
  function SearchFrom(content: string, p: nat): (m: Option<string>)
    requires p <= |content| + 1
    decreases |content| + 1 - p
    ensures m.Some? ==>
              exists q :: p <= q <= |content| && MatchAt(content, q) == m &&
                forall q' :: p <= q' < q ==> MatchAt(content, q').None?
    ensures m.None? ==> forall q :: p <= q <= |content| ==> MatchAt(content, q).None?
  {
    if p > |content| then None
    else
      match MatchAt(content, p)
      case Some(g) => Some(g)
      case None => SearchFrom(content, p + 1)
  }

  /** The comment's text with parentheses and white space stripped from both ends. */
  function CommentBody(raw: string): (content: string)
    ensures IsTrimmed(content)
  {
    Strip(TrimSet(Strip(raw), Parens))
  }

  /**
   * `parse_tool_key`: the value after a `tool key` label when the comment
   * has one, else the whole comment body; lower-cased, with no white space
   * at either end.
   */
  function ParseToolKey(raw: string): (key: string)
    ensures IsLowerCase(key) && IsTrimmed(key)
  {
    var content := CommentBody(raw);
    match SearchFrom(content, 0)
    case Some(g) =>
      LowerKeepsTrimmed(Strip(g));
      Lower(Strip(g))
    case None =>
      LowerKeepsTrimmed(content);
      Lower(content)
  }

  lemma {:induction false} LeadLengthOf(a: string, b: string, cs: set<char>)
    requires forall k :: 0 <= k < |a| ==> a[k] in cs
    requires b == [] || b[0] !in cs
    ensures LeadLength(a + b, cs) == |a|
  {
    if a != [] {
      assert (a + b)[1..] == a[1..] + b;
      LeadLengthOf(a[1..], b, cs);
    }
  }

  /** A comment `(body)` whose body starts and ends with neither a parenthesis nor white space. */
  lemma CommentBodyOf(body: string)
    requires body != []
    requires body[0] !in Parens && !IsSpace(body[0])
    requires Last(body) !in Parens && !IsSpace(Last(body))
    ensures CommentBody("(" + body + ")") == body
  {
    var raw := "(" + body + ")";
    TrimSetKeeps(raw, Whitespace);
    assert raw[1] == body[0];
    assert LeadLength(raw, Parens) == 1;
    var rest := raw[1..];
    assert rest == body + ")";
    assert rest[|rest| - 2] == Last(body);
    assert TrailLength(rest, Parens) == 1;
    assert raw[1..|body| + 1] == body;
    TrimSetKeeps(body, Whitespace);
  }

  /** White space, then text that does not start with white space and has no newline: `\s*(.+)` captures the text. */
  lemma ValueGroupOf(w: string, v: string)
    requires forall k :: 0 <= k < |w| ==> w[k] in Whitespace
    requires v != [] && !IsSpace(v[0])
    requires forall k :: 0 <= k < |v| ==> v[k] != '\n'
    ensures ValueGroup(w + v) == Some(v)
  {
    LeadLengthOf(w, v, Whitespace);
    assert (w + v)[|w|..] == v;
    assert (w + v)[|w|..|w| + |v|] == v;
  }

  /**
   * The body of a labelled comment: `tool` in any case, separators, `key`
   * in any case, white space, `:` or `=`, white space, then the value.
   */
  function Labelled(t: string, sep: string, k: string, w1: string, c: char, w2: string, v: string): string {
    t + (sep + (k + (w1 + ([c] + (w2 + v)))))
  }

  /** The well-formed pieces of a labelled comment. */
  predicate IsLabel(t: string, sep: string, k: string, w1: string, c: char, w2: string) {
    && SameLetters(t, "tool")
    && (forall i :: 0 <= i < |sep| ==> sep[i] in SepChars)
    && SameLetters(k, "key")
    && (forall i :: 0 <= i < |w1| ==> w1[i] in Whitespace)
    && (c == ':' || c == '=')
    && (forall i :: 0 <= i < |w2| ==> w2[i] in Whitespace)
  }

  lemma AfterSeparatorsOf(k: string, w1: string, c: char, w2: string, v: string)
    requires SameLetters(k, "key")
    requires forall i :: 0 <= i < |w1| ==> w1[i] in Whitespace
    requires c == ':' || c == '='
    requires forall i :: 0 <= i < |w2| ==> w2[i] in Whitespace
    requires v != [] && !IsSpace(v[0])
    requires forall i :: 0 <= i < |v| ==> v[i] != '\n'
    ensures AfterSeparators(k + (w1 + ([c] + (w2 + v)))) == Some(v)
  {
    var s := k + (w1 + ([c] + (w2 + v)));
    assert s[..3] == k;
    assert s[3..] == w1 + ([c] + (w2 + v));
    LeadLengthOf(w1, [c] + (w2 + v), Whitespace);
    assert s[3 + |w1|] == c;
    assert s[3 + |w1| + 1..] == w2 + v;
    ValueGroupOf(w2, v);
  }

  /** A labelled comment body matches at its first position, capturing the value. */
  lemma MatchLabel(t: string, sep: string, k: string, w1: string, c: char, w2: string, v: string)
    requires IsLabel(t, sep, k, w1, c, w2)
    requires v != [] && !IsSpace(v[0])
    requires forall i :: 0 <= i < |v| ==> v[i] != '\n'
    ensures MatchAt(Labelled(t, sep, k, w1, c, w2, v), 0) == Some(v)
  {
    var after := k + (w1 + ([c] + (w2 + v)));
    var content := Labelled(t, sep, k, w1, c, w2, v);
    assert content == t + (sep + after);
    assert content[0..4] == t;
    assert content[4..] == sep + after;
    assert LowerChar(k[0]) == 'k';
    LeadLengthOf(sep, after, SepChars);
    assert (sep + after)[|sep|..] == after;
    AfterSeparatorsOf(k, w1, c, w2, v);
  }

  /**
   * `(TOOL_KEY=VALUE)` and its variants, with any case for the label, any
   * run of spaces, underscores and hyphens inside it, and white space around
   * the `:` or `=`, yields the value in lower case.
   */
  lemma LabelledKey(t: string, sep: string, k: string, w1: string, c: char, w2: string, v: string)
    requires IsLabel(t, sep, k, w1, c, w2)
    requires v != [] && !IsSpace(v[0]) && !IsSpace(Last(v)) && Last(v) !in Parens
    requires forall i :: 0 <= i < |v| ==> v[i] != '\n'
    ensures ParseToolKey("(" + Labelled(t, sep, k, w1, c, w2, v) + ")") == Lower(v)
  {
    var body := Labelled(t, sep, k, w1, c, w2, v);
    assert LowerChar(t[0]) == 't';
    assert t[0] == 't' || t[0] == 'T';
    assert body[0] == t[0];
    var prefix := t + (sep + (k + (w1 + ([c] + w2))));
    assert body == prefix + v;
    assert Last(body) == Last(v);
    CommentBodyOf(body);
    MatchLabel(t, sep, k, w1, c, w2, v);
    assert SearchFrom(body, 0) == Some(v);
    TrimSetKeeps(v, Whitespace);
  }

  /** A comment with no `t` in it carries no label: its whole body is the key. */
  lemma UnlabelledKey(v: string)
    requires v != [] && v[0] !in Parens && !IsSpace(v[0]) && Last(v) !in Parens && !IsSpace(Last(v))
    requires forall i :: 0 <= i < |v| ==> v[i] != 't' && v[i] != 'T'
    ensures ParseToolKey("(" + v + ")") == Lower(v)
  {
    CommentBodyOf(v);
    forall p | 0 <= p <= |v|
      ensures MatchAt(v, p).None?
    {
      NoMatchWithoutT(v, p);
    }
    assert SearchFrom(v, 0).None?;
  }

  /** The pattern cannot match at a position that does not hold a `t` or a `T`. */
  lemma NoMatchWithoutT(v: string, p: nat)
    requires p <= |v|
    requires p < |v| ==> v[p] != 't' && v[p] != 'T'
    ensures MatchAt(v, p).None?
  {
    if p + 4 <= |v| {
      assert v[p..p + 4][0] == v[p];
    }
  }

  /** `key`, white space and `:` or `=` are consumed, and `\s*(.+)` runs on what follows. */
  lemma AfterSeparatorsRest(k: string, w1: string, c: char, rest: string)
    requires SameLetters(k, "key")
    requires forall i :: 0 <= i < |w1| ==> w1[i] in Whitespace
    requires c == ':' || c == '='
    ensures AfterSeparators(k + (w1 + ([c] + rest))) == ValueGroup(rest)
  {
    var s := k + (w1 + ([c] + rest));
    assert s[..3] == k;
    assert s[3..] == w1 + ([c] + rest);
    LeadLengthOf(w1, [c] + rest, Whitespace);
    assert s[3 + |w1|] == c;
    assert s[3 + |w1| + 1..] == rest;
  }

  /**
   * Completeness of `MatchAt`: a text that starts with `tool`, separators,
   * `key`, white space and `:` or `=` matches there, and the match captures
   * what `\s*(.+)` captures from the rest.
   */
  lemma MatchAtLabelled(t: string, sep: string, k: string, w1: string, c: char, rest: string)
    requires IsLabel(t, sep, k, w1, c, "")
    ensures MatchAt(Labelled(t, sep, k, w1, c, "", rest), 0) == ValueGroup(rest)
  {
    var after := k + (w1 + ([c] + rest));
    var content := Labelled(t, sep, k, w1, c, "", rest);
    LabelledBare(t, sep, k, w1, c, rest);
    assert content[0..4] == t;
    assert content[4..] == sep + after;
    assert LowerChar(k[0]) == 'k';
    LeadLengthOf(sep, after, SepChars);
    assert (sep + after)[|sep|..] == after;
    AfterSeparatorsRest(k, w1, c, rest);
  }

  /** `s` cut after the three letters of `key`, after `m` more characters, and after one more. */
  lemma SplitKeyPart(s: string, m: nat)
    requires 3 + m < |s|
    ensures s == s[..3] + (s[3..3 + m] + ([s[3 + m]] + s[3 + m + 1..]))
  {
    assert [s[3 + m]] + s[3 + m + 1..] == s[3 + m..];
    assert s[3..3 + m] + s[3 + m..] == s[3..];
  }

  /** What a successful `AfterSeparators` has checked: `key`, white space, then `:` or `=`. */
  lemma AfterSeparatorsGuard(s: string)
    requires AfterSeparators(s).Some?
    ensures |s| >= 3 && SameLetters(s[..3], "key")
    ensures var m := LeadLength(s[3..], Whitespace);
      3 + m < |s| && (s[3 + m] == ':' || s[3 + m] == '=') && AfterSeparators(s) == ValueGroup(s[3 + m + 1..])
  {
  }

  predicate AllWhitespace(w: string) {
    forall i :: 0 <= i < |w| ==> w[i] in Whitespace
  }

  /** The white space after `key` is a run of white-space characters. */
  lemma WhitespaceRun(s: string, m: nat)
    requires 3 + m <= |s| && m == LeadLength(s[3..], Whitespace)
    ensures AllWhitespace(s[3..3 + m])
  {
    var w := s[3..3 + m];
    forall i | 0 <= i < |w|
      ensures w[i] in Whitespace
    {
      assert w[i] == s[3..][i];
    }
  }

  /** Where `AfterSeparators` succeeds, `s` splits into `key`, white space, `:` or `=`, and the rest. */
  lemma {:induction false} AfterSeparatorsSplit(s: string) returns (k: string, w1: string, c: char, rest: string)
    requires AfterSeparators(s).Some?
    ensures SameLetters(k, "key")
    ensures forall i :: 0 <= i < |w1| ==> w1[i] in Whitespace
    ensures c == ':' || c == '='
    ensures s == k + (w1 + ([c] + rest))
    ensures AfterSeparators(s) == ValueGroup(rest)
  {
    AfterSeparatorsGuard(s);
    var m := LeadLength(s[3..], Whitespace);
    WhitespaceRun(s, m);
    k, w1, c, rest := s[..3], s[3..3 + m], s[3 + m], s[3 + m + 1..];
    SplitKeyPart(s, m);
  }

  /** A label with no white space after the `:` or `=`. */
  lemma LabelledBare(t: string, sep: string, k: string, w1: string, c: char, rest: string)
    ensures Labelled(t, sep, k, w1, c, "", rest) == t + (sep + (k + (w1 + ([c] + rest))))
  {
    assert "" + rest == rest;
  }

  /** `content[p..]` cut after the four letters of `tool` and after `n` more characters. */
  lemma SplitToolPart(content: string, p: nat, n: nat)
    requires p + 4 + n <= |content|
    ensures content[p..] == content[p..p + 4] + (content[p + 4..][..n] + content[p + 4..][n..])
  {
    assert content[p + 4..][..n] + content[p + 4..][n..] == content[p + 4..];
  }

  /**
   * Soundness of `MatchAt`: where it matches, the text from that position
   * on is `tool`, separators, `key`, white space, `:` or `=`, and a rest
   * from which `\s*(.+)` captures the value.
   */
  lemma {:induction false} MatchAtSound(content: string, p: nat)
    requires p <= |content| && MatchAt(content, p).Some?
    ensures exists t, sep, k, w1, c, rest ::
              && IsLabel(t, sep, k, w1, c, "")
              && content[p..] == Labelled(t, sep, k, w1, c, "", rest)
              && MatchAt(content, p) == ValueGroup(rest)
  {
    var t := content[p..p + 4];
    var r0 := content[p + 4..];
    var n := LeadLength(r0, SepChars);
    var sep, s := r0[..n], r0[n..];
    assert MatchAt(content, p) == AfterSeparators(s);
    var k, w1, c, rest := AfterSeparatorsSplit(s);
    SplitToolPart(content, p, n);
    LabelledBare(t, sep, k, w1, c, rest);
    assert IsLabel(t, sep, k, w1, c, "");
  }

  /** The word `key`, in any case, at position `i` of `s`. */
  predicate HasKeyWordAt(s: string, i: int) {
    0 <= i <= |s| - 3 && SameLetters(s[i..i + 3], "key")
  }

  /** The pattern only matches where the word `key`, in any case, follows the `tool`. */
  lemma MatchNeedsKeyWord(content: string, p: nat)
    requires p <= |content| && MatchAt(content, p).Some?
    ensures exists i :: p + 4 <= i && HasKeyWordAt(content, i)
  {
    var r0 := content[p + 4..];
    var n := LeadLength(r0, SepChars);
    var i := p + 4 + n;
    assert content[i..i + 3] == r0[n..][..3];
    assert HasKeyWordAt(content, i);
  }

  /**
   * `parse_tool_key` in both cases: with no match anywhere in the comment
   * body, the key is the whole body lower-cased; otherwise it is the
   * trimmed, lower-cased value of the leftmost match.
   */
  lemma ParseToolKeyCases(raw: string)
    ensures var body := CommentBody(raw);
      (forall p :: 0 <= p <= |body| ==> MatchAt(body, p).None?) ==> ParseToolKey(raw) == Lower(body)
    ensures var body := CommentBody(raw);
      forall q :: 0 <= q <= |body| && MatchAt(body, q).Some? &&
                  (forall q' :: 0 <= q' < q ==> MatchAt(body, q').None?) ==>
        ParseToolKey(raw) == Lower(Strip(MatchAt(body, q).value))
  {
    var body := CommentBody(raw);
    forall q | 0 <= q <= |body| && MatchAt(body, q).Some? &&
               (forall q' :: 0 <= q' < q ==> MatchAt(body, q').None?)
      ensures ParseToolKey(raw) == Lower(Strip(MatchAt(body, q).value))
    {
      var m := SearchFrom(body, 0);
      assert m.Some?;
      var q0 :| 0 <= q0 <= |body| && MatchAt(body, q0) == m &&
                forall q' :: 0 <= q' < q0 ==> MatchAt(body, q').None?;
      assert q0 == q;
    }
  }

  /**
   * A comment in which the word `key` appears in no case carries no label,
   * whatever else it says (`(FACE TOOL)`, `(THREAD 60)`): its whole body is
   * the key.
   */
  lemma NoKeyWordKey(v: string)
    requires v != [] && v[0] !in Parens && !IsSpace(v[0]) && Last(v) !in Parens && !IsSpace(Last(v))
    requires forall i :: !HasKeyWordAt(v, i)
    ensures ParseToolKey("(" + v + ")") == Lower(v)
  {
    CommentBodyOf(v);
    forall p | 0 <= p <= |v|
      ensures MatchAt(v, p).None?
    {
      if MatchAt(v, p).Some? {
        MatchNeedsKeyWord(v, p);
      }
    }
    ParseToolKeyCases("(" + v + ")");
  }

  lemma FaceToolHasNoKeyWord()
    ensures forall i :: !HasKeyWordAt("FACE TOOL", i)
  {
    var v := "FACE TOOL";
    forall i | 0 <= i <= |v| - 3
      ensures !HasKeyWordAt(v, i)
    {
      assert v[i..i + 3][0] == v[i];
    }
  }

  /** `(FACE TOOL)` names a tool but has no label, so the whole comment is the key. */
  lemma FaceToolExample()
    ensures ParseToolKey("(FACE TOOL)") == "face tool"
  {
    LowerFaceTool();
    FaceToolHasNoKeyWord();
    assert "(FACE TOOL)" == "(" + "FACE TOOL" + ")";
    NoKeyWordKey("FACE TOOL");
  }

  lemma LowerFaceTool()
    ensures Lower("FACE TOOL") == "face tool"
  {
  }

  lemma LowerUDrill()
    ensures Lower("UDRILL50") == "udrill50"
  {
  }

  // The comment forms the source's documentation lists; each yields `udrill50`.

  /** Any well-formed label in front of `UDRILL50` yields `udrill50`. */
  lemma LabelledUDrill(t: string, sep: string, k: string, w1: string, c: char, w2: string)
    requires IsLabel(t, sep, k, w1, c, w2)
    ensures ParseToolKey("(" + Labelled(t, sep, k, w1, c, w2, "UDRILL50") + ")") == "udrill50"
  {
    LowerUDrill();
    LabelledKey(t, sep, k, w1, c, w2, "UDRILL50");
  }

  lemma EqualsLabel()
    ensures IsLabel("TOOL", "_", "KEY", "", '=', "")
  {
  }

  lemma EqualsLabelText()
    ensures "(TOOL_KEY=UDRILL50)" == "(" + Labelled("TOOL", "_", "KEY", "", '=', "", "UDRILL50") + ")"
  {
    assert Labelled("TOOL", "_", "KEY", "", '=', "", "UDRILL50") == "TOOL_KEY=UDRILL50";
    assert "(TOOL_KEY=UDRILL50)" == "(" + "TOOL_KEY=UDRILL50" + ")";
  }

  lemma KeyEqualsExample()
    ensures ParseToolKey("(TOOL_KEY=UDRILL50)") == "udrill50"
  {
    EqualsLabel();
    EqualsLabelText();
    LabelledUDrill("TOOL", "_", "KEY", "", '=', "");
  }

  lemma SpacedLabel()
    ensures IsLabel("TOOL", "_", "KEY", " ", '=', " ")
  {
  }

  lemma SpacedLabelText()
    ensures "(TOOL_KEY = UDRILL50)" == "(" + Labelled("TOOL", "_", "KEY", " ", '=', " ", "UDRILL50") + ")"
  {
    assert Labelled("TOOL", "_", "KEY", " ", '=', " ", "UDRILL50") == "TOOL_KEY = UDRILL50";
    assert "(TOOL_KEY = UDRILL50)" == "(" + "TOOL_KEY = UDRILL50" + ")";
  }

  lemma KeySpacedExample()
    ensures ParseToolKey("(TOOL_KEY = UDRILL50)") == "udrill50"
  {
    SpacedLabel();
    SpacedLabelText();
    LabelledUDrill("TOOL", "_", "KEY", " ", '=', " ");
  }

  lemma ColonLabel()
    ensures IsLabel("Tool", " ", "Key", "", ':', " ")
  {
  }

  lemma ColonLabelText()
    ensures "(Tool Key: UDRILL50)" == "(" + Labelled("Tool", " ", "Key", "", ':', " ", "UDRILL50") + ")"
  {
    assert Labelled("Tool", " ", "Key", "", ':', " ", "UDRILL50") == "Tool Key: UDRILL50";
    assert "(Tool Key: UDRILL50)" == "(" + "Tool Key: UDRILL50" + ")";
  }

  lemma KeyColonExample()
    ensures ParseToolKey("(Tool Key: UDRILL50)") == "udrill50"
  {
    ColonLabel();
    ColonLabelText();
    LabelledUDrill("Tool", " ", "Key", "", ':', " ");
  }

  lemma KeyBareExample()
    ensures ParseToolKey("(UDRILL50)") == "udrill50"
  {
    LowerUDrill();
    assert "(UDRILL50)" == "(" + "UDRILL50" + ")";
    UnlabelledKey("UDRILL50");
  }

  // ---------------------------------------------------------------- build_tool_block

  /** `info.get(name, default)`. */
  function Field(info: Entry, name: string, default: string): string {
    if name in info then info[name] else default
  }

  /**
   * The table holds an entry for the lower-cased key and it is not empty
   * (`if not info` rejects a missing entry and an empty one alike).
   */
  predicate Known(table: ToolTable, toolKey: string) {
    Lower(toolKey) in table && table[Lower(toolKey)] != map[]
  }

  /**
   * `build_tool_block`: the N-number line, the retract line, the tool line
   * itself and the coolant line, then, only for a known tool, the
   * speed/feed line; a tool that is not known is shown as unknown.
   */
  function BuildToolBlock(toolNumber: string, toolKey: string, table: ToolTable): (block: seq<string>)
    ensures |block| == (if Known(table, toolKey) then 5 else 4)
    ensures block[1] == RetractLine && block[2] == toolNumber && block[3] == CoolantLine
    ensures NFromTool(toolNumber) + " " <= block[0]
    ensures !Known(table, toolKey) ==> block[0] == NFromTool(toolNumber) + " " + UnknownTool
    ensures Known(table, toolKey) ==> "G99" <= block[4]
  {
    var keyLc := Lower(toolKey);
    if keyLc !in table || table[keyLc] == map[] then
      [NFromTool(toolNumber) + " " + UnknownTool, RetractLine, toolNumber, CoolantLine]
    else
      var info := table[keyLc];
      var display := Field(info, "display", UnknownTool);
      var toolType := Field(info, "type", "G96");
      var speed := Field(info, "speed", "200");
      var feed := Field(info, "feed", ".25");
      [NFromTool(toolNumber) + " " + display, RetractLine, toolNumber, CoolantLine,
       "G99" + toolType + "S" + speed + "F" + feed]
  }

  /**
   * A known tool's block shows the entry's display name, or `(UNKNOWN TOOL)`
   * when the entry has none.
   */
  lemma KnownToolDisplay(toolNumber: string, toolKey: string, table: ToolTable)
    requires Known(table, toolKey)
    ensures BuildToolBlock(toolNumber, toolKey, table)[0] ==
      NFromTool(toolNumber) + " " + Field(table[Lower(toolKey)], "display", UnknownTool)
  {
  }

  /**
   * A known tool's speed/feed line takes each of motion type, speed and
   * feed from the entry when it is there, and otherwise that field's own
   * default (`G96`, `200`, `.25`), field by field.
   */
  lemma KnownToolSpeedLine(toolNumber: string, toolKey: string, table: ToolTable)
    requires Known(table, toolKey)
    ensures var info := table[Lower(toolKey)];
      BuildToolBlock(toolNumber, toolKey, table)[4] ==
        "G99" + (if "type" in info then info["type"] else "G96") +
        "S" + (if "speed" in info then info["speed"] else "200") +
        "F" + (if "feed" in info then info["feed"] else ".25")
  {
  }

  /** A known tool's speed/feed line carries the entry's motion type, speed and feed. */
  lemma KnownToolFields(toolNumber: string, toolKey: string, table: ToolTable)
    requires Known(table, toolKey)
    requires var info := table[Lower(toolKey)]; "type" in info && "speed" in info && "feed" in info
    ensures var info := table[Lower(toolKey)];
      BuildToolBlock(toolNumber, toolKey, table)[4] ==
        "G99" + info["type"] + "S" + info["speed"] + "F" + info["feed"]
  {
    KnownToolSpeedLine(toolNumber, toolKey, table);
  }

  /** A known tool whose entry gives none of them gets `G96`, `200` and `.25`. */
  lemma KnownToolDefaults(toolNumber: string, toolKey: string, table: ToolTable)
    requires Known(table, toolKey)
    requires var info := table[Lower(toolKey)]; "type" !in info && "speed" !in info && "feed" !in info
    ensures BuildToolBlock(toolNumber, toolKey, table)[4] == "G99G96S200F.25"
  {
    KnownToolSpeedLine(toolNumber, toolKey, table);
    assert "G99" + "G96" + "S" + "200" + "F" + ".25" == "G99G96S200F.25";
  }

  /** An entry giving only a speed keeps the default type and feed: `G99G96S900F.25`. */
  lemma SpeedOnlyEntry(toolNumber: string, toolKey: string, table: ToolTable)
    requires Known(table, toolKey)
    requires table[Lower(toolKey)] == map["display" := "(D)", "speed" := "900"]
    ensures BuildToolBlock(toolNumber, toolKey, table)[4] == "G99G96S900F.25"
  {
    KnownToolSpeedLine(toolNumber, toolKey, table);
    assert "G99" + "G96" + "S" + "900" + "F" + ".25" == "G99G96S900F.25";
  }

  /** Keys are compared in lower case: the key's case does not matter. */
  lemma BlockIgnoresKeyCase(toolNumber: string, key1: string, key2: string, table: ToolTable)
    requires Lower(key1) == Lower(key2)
    ensures BuildToolBlock(toolNumber, key1, table) == BuildToolBlock(toolNumber, key2, table)
  {
  }
}
