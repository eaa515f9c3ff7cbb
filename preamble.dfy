/**
 * `strip_preamble` (fusion_gcode_formatter.py:92-109): drops empty and `%`
 * lines and everything before the first tool change, and picks out the
 * program number.
 */
module Preamble {
  import opened Wrappers
  import opened Text
  import opened Gcode

  const DefaultProgramNumber: string := "O0000"

  /** The loop's variables after some lines: `found_tool`, `program_number` and `cleaned`. */
  datatype Scan = Scan(foundTool: bool, programNumber: Option<string>, cleaned: seq<string>)

  /** A line the loop skips before any other test: empty once trimmed, or `%`. */
  predicate IsSkipped(line: string) {
    Strip(line) == "" || Strip(line) == "%"
  }

  /** One pass of the loop body of `strip_preamble` over `line`. */
  function ScanStep(st: Scan, line: string): (r: Scan)
    ensures !r.foundTool ==> r.cleaned == st.cleaned
  {
    var s := Strip(line);
    if s == "" || s == "%" then st
    else
      var found := st.foundTool || IsToolLine(s);
      Scan(found,
           if IsProgramNumber(s) then Some(s) else st.programNumber,
           if found then st.cleaned + [s] else st.cleaned)
  }

  /** The state of the loop of `strip_preamble` once it has read all of `lines`. */
  function ScanLines(lines: seq<string>): (st: Scan)
    ensures |st.cleaned| <= |lines|
    ensures !st.foundTool ==> st.cleaned == []
  {
    if lines == [] then Scan(false, None, []) else ScanStep(ScanLines(Init(lines)), Last(lines))
  }

  /** What `strip_preamble` returns: the program number (or the default) and the kept lines. */
  function Stripped(lines: seq<string>): (string, seq<string>) {
    var st := ScanLines(lines);
    (st.programNumber.GetOr(DefaultProgramNumber), st.cleaned)
  }

  method StripPreamble(lines: seq<string>) returns (programNumber: string, cleaned: seq<string>)
    ensures (programNumber, cleaned) == Stripped(lines)
  {
    cleaned := [];
    var program: Option<string> := None;
    var foundTool := false;
    for i := 0 to |lines|
      invariant ScanLines(lines[..i]) == Scan(foundTool, program, cleaned)
    {
      assert Init(lines[..i + 1]) == lines[..i];
      assert Last(lines[..i + 1]) == lines[i];
      var s := Strip(lines[i]);
      if s == "" || s == "%" {
        continue;
      }
      if IsProgramNumber(s) {
        program := Some(s);
      }
      if IsToolLine(s) {
        foundTool := true;
      }
      if foundTool {
        cleaned := cleaned + [s];
      }
    }
    assert lines[..|lines|] == lines;
    if program.None? {
      programNumber := DefaultProgramNumber;
    } else {
      programNumber := program.value;
    }
  }

  /** Index of the first line whose trimmed text is a tool change, or `|lines|` if there is none. */
  function FirstTool(lines: seq<string>): (f: nat)
    ensures f <= |lines|
  {
    if lines == [] then 0
    else
      var f := FirstTool(Init(lines));
      if f < |lines| - 1 then f
      else if IsToolLine(Strip(Last(lines))) then |lines| - 1
      else |lines|
  }

  /** `FirstTool` by position: no line before it is a tool change, and it is one unless it is `|lines|`. */
  lemma {:induction false} FirstToolSpec(lines: seq<string>)
    ensures forall k :: 0 <= k < FirstTool(lines) ==> !IsToolLine(Strip(lines[k]))
    ensures FirstTool(lines) < |lines| ==> IsToolLine(Strip(lines[FirstTool(lines)]))
  {
    if lines != [] {
      FirstToolSpec(Init(lines));
      assert forall k :: 0 <= k < |lines| - 1 ==> lines[k] == Init(lines)[k];
    }
  }

  /** The trimmed text of the lines of `lines` that are neither empty nor `%`, in order. */
  function Content(lines: seq<string>): seq<string> {
    if lines == [] then []
    else Content(Init(lines)) + (if IsSkipped(Last(lines)) then [] else [Strip(Last(lines))])
  }

  lemma ContentSnoc(q: seq<string>, x: string)
    ensures Content(q + [x]) == Content(q) + (if IsSkipped(x) then [] else [Strip(x)])
  {
    assert Init(q + [x]) == q;
  }

  /** No kept line is empty or `%`. */
  lemma {:induction false} ContentHasNoBlank(lines: seq<string>)
    ensures forall k :: 0 <= k < |Content(lines)| ==> Content(lines)[k] != "" && Content(lines)[k] != "%"
  {
    if lines != [] {
      ContentHasNoBlank(Init(lines));
    }
  }

  /** A tool change has been seen exactly when some line is one. */
  lemma {:induction false} FoundToolIffAny(lines: seq<string>)
    ensures ScanLines(lines).foundTool <==> FirstTool(lines) < |lines|
  {
    if lines != [] {
      FoundToolIffAny(Init(lines));
      assert ScanLines(lines) == ScanStep(ScanLines(Init(lines)), Last(lines));
    }
  }

  /** What one pass adds to the kept lines: the trimmed line, once a tool change has been seen. */
  lemma ScanStepCleaned(st: Scan, x: string)
    ensures ScanStep(st, x).cleaned ==
      if st.foundTool || IsToolLine(Strip(x)) then st.cleaned + (if IsSkipped(x) then [] else [Strip(x)])
      else st.cleaned
  {
  }

  /**
   * The kept lines are exactly the non-empty, non-`%` lines from the first
   * tool change on, trimmed; there are none when no line is a tool change.
   */
  lemma {:induction false} KeptFromFirstTool(lines: seq<string>)
    ensures ScanLines(lines).cleaned == Content(lines[FirstTool(lines)..])
  {
    if lines != [] {
      var p, x := Init(lines), Last(lines);
      assert lines == p + [x];
      KeptFromFirstTool(p);
      FoundToolIffAny(p);
      var f := FirstTool(p);
      assert ScanLines(lines) == ScanStep(ScanLines(p), x);
      ScanStepCleaned(ScanLines(p), x);
      if f < |p| {
        assert lines[f..] == p[f..] + [x];
        ContentSnoc(p[f..], x);
      } else if IsToolLine(Strip(x)) {
        assert lines[|p|..] == [] + [x];
        ContentSnoc([], x);
      } else {
        assert lines[|lines|..] == [];
      }
    }
  }

  /** Every line kept is an input line, trimmed, that is neither empty nor `%`. */
  lemma {:induction false} ContentFromInput(lines: seq<string>, k: nat)
    requires k < |Content(lines)|
    ensures exists j :: 0 <= j < |lines| && Content(lines)[k] == Strip(lines[j]) && !IsSkipped(lines[j])
  {
    var p := Init(lines);
    if k < |Content(p)| {
      ContentFromInput(p, k);
      var j :| 0 <= j < |p| && Content(p)[k] == Strip(p[j]) && !IsSkipped(p[j]);
      assert lines[j] == p[j];
    } else {
      assert Content(lines)[k] == Strip(lines[|lines| - 1]);
    }
  }

  /** Every line `strip_preamble` returns is an input line from the first tool change on, trimmed. */
  lemma StrippedFromInput(lines: seq<string>, k: nat)
    requires k < |Stripped(lines).1|
    ensures exists j :: FirstTool(lines) <= j < |lines| && Stripped(lines).1[k] == Strip(lines[j])
  {
    var f := FirstTool(lines);
    KeptFromFirstTool(lines);
    ContentFromInput(lines[f..], k);
    var j :| 0 <= j < |lines[f..]| && Content(lines[f..])[k] == Strip(lines[f..][j]) && !IsSkipped(lines[f..][j]);
    assert lines[f..][j] == lines[f + j];
  }

  /** Line `j` of `lines` is an `O<digits>` line once trimmed. */
  predicate IsProgramLine(lines: seq<string>, j: int) {
    0 <= j < |lines| && IsProgramNumber(Strip(lines[j]))
  }

  /** Index of the last `O<digits>` line, or -1 if there is none. */
  function LastProgramLine(lines: seq<string>): (j: int)
    ensures -1 <= j < |lines|
  {
    if lines == [] then -1
    else if IsProgramNumber(Strip(Last(lines))) then |lines| - 1
    else LastProgramLine(Init(lines))
  }

  /** `LastProgramLine` by position: an `O<digits>` line with none after it. */
  lemma {:induction false} LastProgramLineIsLast(lines: seq<string>)
    ensures var j := LastProgramLine(lines);
      j >= 0 ==> IsProgramLine(lines, j) && forall m :: j < m < |lines| ==> !IsProgramLine(lines, m)
  {
    if lines != [] && !IsProgramNumber(Strip(Last(lines))) {
      var p := Init(lines);
      LastProgramLineIsLast(p);
      var j := LastProgramLine(p);
      if j >= 0 {
        assert lines[j] == p[j];
        forall m | j < m < |lines| ensures !IsProgramLine(lines, m) {
          if m < |p| {
            assert !IsProgramLine(p, m);
            assert lines[m] == p[m];
          } else {
            assert lines[m] == Last(lines);
          }
        }
      }
    }
  }

  /** `LastProgramLine` is -1 exactly when no line is an `O<digits>` line. */
  lemma {:induction false} NoProgramLine(lines: seq<string>)
    ensures LastProgramLine(lines) < 0 <==> forall j :: !IsProgramLine(lines, j)
  {
    if lines != [] {
      var p := Init(lines);
      NoProgramLine(p);
      if IsProgramNumber(Strip(Last(lines))) {
        assert IsProgramLine(lines, |lines| - 1);
      } else {
        forall j ensures IsProgramLine(lines, j) <==> IsProgramLine(p, j) {
          if 0 <= j < |p| {
            assert lines[j] == p[j];
          }
        }
      }
    }
  }

  /**
   * The recorded program number is the text of the LAST `O<digits>` line
   * (every later one overwrites it), and there is none without such a line.
   */
  lemma {:induction false} ProgramNumberIsLast(lines: seq<string>)
    ensures var j := LastProgramLine(lines);
      ScanLines(lines).programNumber == if j < 0 then None else Some(Strip(lines[j]))
  {
    if lines != [] {
      var p := Init(lines);
      ProgramNumberIsLast(p);
      assert ScanLines(lines) == ScanStep(ScanLines(p), Last(lines));
      if LastProgramLine(lines) == LastProgramLine(p) && LastProgramLine(p) >= 0 {
        assert lines[LastProgramLine(p)] == p[LastProgramLine(p)];
      }
    }
  }

  /** The program number returned is an `O<digits>` line, the default when the input has none. */
  lemma DefaultOnlyWithoutProgramLine(lines: seq<string>)
    ensures (forall j :: !IsProgramLine(lines, j)) ==> Stripped(lines).0 == DefaultProgramNumber
    ensures IsProgramNumber(Stripped(lines).0)
  {
    ProgramNumberIsLast(lines);
    LastProgramLineIsLast(lines);
    NoProgramLine(lines);
    if LastProgramLine(lines) < 0 {
      assert DefaultProgramNumber[1..] == "0000";
    }
  }
}
