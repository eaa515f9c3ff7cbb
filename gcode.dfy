/**
 * The tests the formatter applies to a trimmed G-code line
 * (fusion_gcode_formatter.py:101, 103, 230, 238, 279).
 */
module Gcode {
  import opened Text

  /** `s.startswith("O") and s[1:].isdigit()`: a program number such as `O1234`. */
  predicate IsProgramNumber(s: string) {
    s != "" && s[0] == 'O' && IsDigits(s[1..])
  }

  /**
   * `s.startswith("T") and s[1:3].isdigit()`: a tool change. Only the
   * characters at positions 1 and 2 are looked at, so `T7`, `T07` and
   * `T0707` all count, and `T7X` does not.
   */
  predicate IsToolLine(s: string) {
    |s| >= 2 && s[0] == 'T' && IsDigits(s[1..if |s| < 3 then |s| else 3])
  }

  /** `s.startswith("(") and s.endswith(")")`: a comment that may carry a tool key. */
  predicate IsComment(s: string) {
    s != "" && s[0] == '(' && Last(s) == ')'
  }

  /** The end-of-program markers `M99` and `M30`. */
  predicate IsEndMarker(s: string) {
    s == "M99" || s == "M30"
  }

  /** The loop's tests pick out disjoint kinds of line: a line passes at most one of them. */
  lemma LineTestsExclusive(s: string)
    ensures IsComment(s) ==> !IsToolLine(s) && !IsEndMarker(s) && !IsProgramNumber(s)
    ensures IsToolLine(s) ==> !IsEndMarker(s) && !IsProgramNumber(s)
    ensures IsEndMarker(s) ==> !IsProgramNumber(s)
  {
  }

  /** Only the two characters after `T` are looked at, and there must be at least one. */
  lemma ToolLineExamples()
    ensures IsToolLine("T7") && IsToolLine("T0101") && IsToolLine("T07X")
    ensures !IsToolLine("T") && !IsToolLine("T7X") && !IsToolLine("TA1") && !IsToolLine("t0101")
  {
    assert "T7"[1..2] == "7";
    assert "T0101"[1..3] == "01";
    assert "T07X"[1..3] == "07";
    assert "T7X"[1..3] == "7X" && "7X"[1] == 'X';
    assert "TA1"[1..3] == "A1" && "A1"[0] == 'A';
  }

  /** `isdigit` is false on the empty string, so `O` alone is no program number. */
  lemma ProgramNumberExamples()
    ensures IsProgramNumber("O1234") && IsProgramNumber("O0")
    ensures !IsProgramNumber("O") && !IsProgramNumber("O12A") && !IsProgramNumber("P1234")
  {
    assert "O12A"[1..][2] == 'A';
  }
}
