/**
 * The formatting pipeline of `main` (fusion_gcode_formatter.py:211-215,
 * 219-297): the three cleaning passes, `strip_preamble`, the block
 * assembler and `insert_standard_blocks`, applied in that order to the
 * lines of the input file. Picking the file, reading the tool table and
 * writing the result are left to the caller: the lines and the table are
 * parameters and the formatted lines are the result.
 */
module Formatter {
  import opened Text
  import opened Gcode
  import opened Filters
  import opened Preamble
  import opened Tools
  import opened Assembler
  import opened Envelope
  import opened Wrappers

  /** The program number and the lines `strip_preamble` leaves, after the three cleaning passes. */
  function Cleaned(raw: seq<string>): (string, seq<string>) {
    Stripped(Unbanned(Tidy(Relevant(raw))))
  }

  /** The formatted program: the assembled body between the start-up and shut-down blocks. */
  function Formatted(raw: seq<string>, table: ToolTable): seq<string> {
    var (programNumber, body) := Cleaned(raw);
    InsertStandardBlocks(programNumber, Render(Events(Kinds(body)), table))
  }

  method Format(raw: seq<string>, table: ToolTable) returns (output: seq<string>)
    ensures output == Formatted(raw, table)
  {
    var lines := KeepRelevantLines(raw);
    lines := TidySpacing(lines);
    lines := RemoveUnwantedGcodes(lines);
    var programNumber, body := StripPreamble(lines);
    var final := Assemble(body, table);
    output := InsertStandardBlocks(programNumber, final);
  }

  /**
   * `tidy_spacing` has nothing to do in this pipeline: the lines kept by
   * `keep_relevant_lines` are never empty, so no two empty lines follow
   * each other.
   */
  lemma TidyAfterRelevantIsIdentity(raw: seq<string>)
    ensures Tidy(Relevant(raw)) == Relevant(raw)
  {
    var kept := Relevant(raw);
    assert NoDoubleBlank(kept) by {
      forall k | 0 <= k < |kept| - 1
        ensures !(kept[k] == "" && kept[k + 1] == "")
      {
        assert IsRelevant(kept[k]);
      }
    }
    TidyKeepsTidy(kept);
  }

  /**
   * The output opens with the eight start-up lines, the third of which is
   * an `O<digits>` program number, and closes with the five shut-down lines.
   */
  lemma FormattedFrame(raw: seq<string>, table: ToolTable)
    ensures var out := Formatted(raw, table);
      && |out| >= 13
      && out[..8] == StartBlock(out[2])
      && IsProgramNumber(out[2])
      && out[|out| - 5..] == EndBlock
  {
    DefaultOnlyWithoutProgramLine(Unbanned(Tidy(Relevant(raw))));
  }

  /**
   * Between the start-up and shut-down blocks there is no `M99`, no `M30`
   * and no comment: the only end marker left is the one the shut-down
   * block supplies.
   */
  lemma FormattedBodyIsClean(raw: seq<string>, table: ToolTable)
    ensures var out := Formatted(raw, table);
      forall k :: 8 <= k < |out| - 5 ==> Clean(out[k])
  {
    var body := Cleaned(raw).1;
    var final := Render(Events(Kinds(body)), table);
    var out := Formatted(raw, table);
    BodyIsClean(body, table);
    forall k | 8 <= k < |out| - 5
      ensures Clean(out[k])
    {
      assert out[8..|out| - 5] == final;
      assert out[k] == final[k - 8];
    }
  }

  /** Every line left after the cleaning passes and `strip_preamble` is an input line, trimmed. */
  lemma CleanedFromInput(raw: seq<string>, k: nat)
    requires k < |Cleaned(raw).1|
    ensures exists i :: 0 <= i < |raw| && Cleaned(raw).1[k] == Strip(raw[i])
  {
    var kept := Relevant(raw);
    TidyAfterRelevantIsIdentity(raw);
    var lines := Unbanned(kept);
    StrippedFromInput(lines, k);
    var j :| FirstTool(lines) <= j < |lines| && Cleaned(raw).1[k] == Strip(lines[j]);
    UnbannedExactly(kept, lines[j]);
    var m :| 0 <= m < |kept| && kept[m] == lines[j];
    RelevantFromInput(raw, m);
    var i :| 0 <= i < |raw| && kept[m] == Strip(raw[i]);
    StripIdempotent(raw[i]);
  }

  /**
   * Every line left after the cleaning passes and `strip_preamble` passed
   * both line filters: it is relevant and it does not start with a banned
   * code.
   */
  lemma CleanedPassedFilters(raw: seq<string>, k: nat)
    requires k < |Cleaned(raw).1|
    ensures IsRelevant(Cleaned(raw).1[k]) && !IsBanned(Cleaned(raw).1[k])
  {
    var kept := Relevant(raw);
    TidyAfterRelevantIsIdentity(raw);
    var lines := Unbanned(kept);
    StrippedFromInput(lines, k);
    var j :| FirstTool(lines) <= j < |lines| && Cleaned(raw).1[k] == Strip(lines[j]);
    UnbannedExactly(kept, lines[j]);
    var m :| 0 <= m < |kept| && kept[m] == lines[j];
    TrimSetKeeps(kept[m], Whitespace);
  }

  // ---------------------------------------------------------------- a key comment in the preamble

  /** A line the three cleaning passes keep as it is. */
  predicate Survives(line: string) {
    Strip(line) == line && IsRelevant(line) && !IsBanned(line)
  }

  /** Lines that each survive the cleaning passes reach `strip_preamble` unchanged. */
  lemma {:induction false} FiltersKeepSurvivors(lines: seq<string>)
    requires forall k :: 0 <= k < |lines| ==> Survives(lines[k])
    ensures Relevant(lines) == lines && Unbanned(lines) == lines
    ensures Unbanned(Tidy(Relevant(lines))) == lines
  {
    if lines != [] {
      FiltersKeepSurvivors(Init(lines));
      assert lines == Init(lines) + [Last(lines)];
    }
    TidyAfterRelevantIsIdentity(lines);
  }

  /**
   * A program number, then a line that is neither a tool change nor a
   * program number, then a tool change: `strip_preamble` keeps the program
   * number and drops the line between, with everything before the tool
   * change.
   */
  lemma LineBeforeFirstToolDropped(prog: string, other: string, tool: string, move: string, end: string)
    requires Survives(prog) && Survives(other) && Survives(tool) && Survives(move) && Survives(end)
    requires prog != "%" && other != "%" && tool != "%" && move != "%" && end != "%"
    requires IsProgramNumber(prog) && !IsToolLine(prog)
    requires !IsToolLine(other) && !IsProgramNumber(other)
    requires IsToolLine(tool) && !IsProgramNumber(move) && !IsProgramNumber(end)
    ensures Cleaned([prog, other, tool, move, end]) == (prog, [tool, move, end])
  {
    var xs := [prog, other, tool, move, end];
    assert forall k :: 0 <= k < |xs| ==> Survives(xs[k]);
    FiltersKeepSurvivors(xs);
    LineTestsExclusive(tool);
    PreambleScan(prog, other, tool, move, end);
  }

  /** The scan of `strip_preamble` over such lines, one step at a time. */
  lemma PreambleScan(prog: string, other: string, tool: string, move: string, end: string)
    requires Strip(prog) == prog && Strip(other) == other && Strip(tool) == tool
    requires Strip(move) == move && Strip(end) == end
    requires !IsSkipped(prog) && !IsSkipped(other) && !IsSkipped(tool) && !IsSkipped(move) && !IsSkipped(end)
    requires IsProgramNumber(prog) && !IsToolLine(prog)
    requires !IsToolLine(other) && !IsProgramNumber(other)
    requires IsToolLine(tool) && !IsProgramNumber(tool) && !IsProgramNumber(move) && !IsProgramNumber(end)
    ensures Stripped([prog, other, tool, move, end]) == (prog, [tool, move, end])
  {
    var s1 := Scan(false, Some(prog), []);
    var s3 := Scan(true, Some(prog), [tool]);
    var s4 := Scan(true, Some(prog), [tool, move]);
    assert ScanStep(Scan(false, None, []), prog) == s1;
    assert ScanStep(s1, other) == s1;
    assert ScanStep(s1, tool) == s3;
    assert ScanStep(s3, move) == s4;
    assert ScanStep(s4, end) == Scan(true, Some(prog), [tool, move, end]);
    assert Init([prog]) == [];
    assert ScanLines([prog]) == s1;
    assert Init([prog, other]) == [prog];
    assert ScanLines([prog, other]) == s1;
    assert Init([prog, other, tool]) == [prog, other];
    assert ScanLines([prog, other, tool]) == s3;
    assert Init([prog, other, tool, move]) == [prog, other, tool];
    assert ScanLines([prog, other, tool, move]) == s4;
    assert Init([prog, other, tool, move, end]) == [prog, other, tool, move];
  }

  /** The kinds of a tool change, a plain line and an end marker. */
  lemma LoneToolKinds(tool: string, move: string, end: string)
    requires Strip(tool) == tool && Strip(move) == move && Strip(end) == end
    requires IsToolLine(tool) && !IsComment(tool)
    requires !IsComment(move) && !IsToolLine(move) && !IsEndMarker(move)
    requires IsEndMarker(end) && !IsComment(end)
    ensures Kinds([tool, move, end]) == [ToolChange(tool), Plain(move), EndMarker]
  {
    LineTestsExclusive(end);
    assert Classify(tool) == ToolChange(tool);
    assert Classify(move) == Plain(move);
    assert Classify(end) == EndMarker;
    KindsOfThree(tool, move, end, ToolChange(tool), Plain(move), EndMarker);
  }

  /** The kinds of three lines, given the kind of each. */
  lemma KindsOfThree(a: string, b: string, c: string, ka: Kind, kb: Kind, kc: Kind)
    requires Classify(a) == ka && Classify(b) == kb && Classify(c) == kc
    ensures Kinds([a, b, c]) == [ka, kb, kc]
  {
    KindsOfTwo(a, b);
    KindsSnoc([a, b], c);
    assert [a, b] + [c] == [a, b, c];
  }

  /** The kinds of two lines. */
  lemma KindsOfTwo(a: string, b: string)
    ensures Kinds([a, b]) == [Classify(a), Classify(b)]
  {
    KindsOfOne(a);
    KindsSnoc([a], b);
    assert [a] + [b] == [a, b];
  }

  /** The kind of one line. */
  lemma KindsOfOne(a: string)
    ensures Kinds([a]) == [Classify(a)]
  {
    KindsSnoc([], a);
    assert [] + [a] == [a];
  }

  /**
   * A tool change on the first line, followed by one plain line and an end
   * marker: no key lies ahead and there is nothing behind, so the header
   * takes the empty key; the end marker closes the tool path.
   */
  lemma LoneToolWithoutKey(tool: string, move: string)
    ensures Events([ToolChange(tool), Plain(move), EndMarker]) == [Header(tool, ""), Pass(move), Close(true)]
  {
    var ks := [ToolChange(tool), Plain(move), EndMarker];
    NoKeyFound(ks, 0, None);
    assert Run(ks, 1) == AsmState([Header(tool, "")], true, None);
    assert Run(ks, 2) == AsmState([Header(tool, ""), Pass(move)], true, None);
  }

  /** The lines of the events of `LoneToolWithoutKey`. */
  lemma LoneToolRender(tool: string, key: string, move: string, table: ToolTable)
    ensures Render([Header(tool, key), Pass(move), Close(true)], table) ==
            BuildToolBlock(tool, key, table) + [move, RetractLine, DwellLine, ""]
  {
    var h := Header(tool, key);
    RenderOfTwo(h, Pass(move), table);
    RenderSnoc([h, Pass(move)], Close(true), table);
    assert [h, Pass(move)] + [Close(true)] == [h, Pass(move), Close(true)];
    AppendAssoc(BuildToolBlock(tool, key, table), [move], [RetractLine, DwellLine, ""]);
    assert [move] + [RetractLine, DwellLine, ""] == [move, RetractLine, DwellLine, ""];
  }

  /** The lines of two events. */
  lemma RenderOfTwo(e: Emit, f: Emit, table: ToolTable)
    ensures Render([e, f], table) == EmitLines(e, table) + EmitLines(f, table)
  {
    RenderOfOne(e, table);
    RenderSnoc([e], f, table);
    assert [e] + [f] == [e, f];
  }

  /** The lines of one event. */
  lemma RenderOfOne(e: Emit, table: ToolTable)
    ensures Render([e], table) == EmitLines(e, table)
  {
    RenderSnoc([], e, table);
    assert [] + [e] == [e];
  }

  /** A trimmed line that does not start with `G`, or starts with `G0`, is not banned. */
  lemma NotBannedByHead(line: string)
    requires Strip(line) == line && line != ""
    requires line[0] != 'G' || (|line| >= 2 && line[1] == '0')
    ensures !IsBanned(line)
  {
    forall p | p in BannedPrefixes
      ensures !(p <= line)
    {
      assert p[0] == 'G' && p[1] != '0';
    }
  }

  /** A line with no white space at its ends, relevant and not banned by its head, survives the cleaning passes. */
  lemma SurvivesByShape(line: string)
    requires line != "" && !IsSpace(line[0]) && !IsSpace(Last(line))
    requires line[0] in LeadingTokens || line in BareMarkers
    requires line[0] != 'G' || (|line| >= 2 && line[1] == '0')
    ensures Survives(line)
  {
    TrimSetKeeps(line, Whitespace);
    NotBannedByHead(line);
  }

  /** The first three lines of the example survive the cleaning passes. */
  lemma KeyFirstSurvives()
    ensures Survives("O1234") && Survives("(TOOL_KEY=DRILL1)") && Survives("T0101")
  {
    SurvivesByShape("O1234");
    SurvivesByShape("(TOOL_KEY=DRILL1)");
    SurvivesByShape("T0101");
  }

  /** So do its last two. */
  lemma KeyFirstSurvivesRest()
    ensures Survives("G01X1.Y1.") && Survives("M30")
  {
    SurvivesByShape("G01X1.Y1.");
    SurvivesByShape("M30");
  }

  /** The example after the cleaning passes and `strip_preamble`. */
  lemma KeyFirstCleaned()
    ensures Cleaned(["O1234", "(TOOL_KEY=DRILL1)", "T0101", "G01X1.Y1.", "M30"]) ==
              ("O1234", ["T0101", "G01X1.Y1.", "M30"])
  {
    KeyFirstSurvives();
    KeyFirstSurvivesRest();
    assert "T0101"[1..3] == "01";
    assert "O1234"[1..] == "1234";
    LineBeforeFirstToolDropped("O1234", "(TOOL_KEY=DRILL1)", "T0101", "G01X1.Y1.", "M30");
  }

  /** The example's events, once its preamble is gone. */
  lemma KeyFirstEvents()
    ensures Events(Kinds(["T0101", "G01X1.Y1.", "M30"])) ==
              [Header("T0101", ""), Pass("G01X1.Y1."), Close(true)]
  {
    KeyFirstSurvives();
    KeyFirstSurvivesRest();
    assert "T0101"[1..3] == "01";
    LoneToolKinds("T0101", "G01X1.Y1.", "M30");
    LoneToolWithoutKey("T0101", "G01X1.Y1.");
  }

  /** The example's output, in terms of its events. */
  lemma KeyFirstFormatted(table: ToolTable)
    ensures Formatted(["O1234", "(TOOL_KEY=DRILL1)", "T0101", "G01X1.Y1.", "M30"], table) ==
              InsertStandardBlocks("O1234", Render([Header("T0101", ""), Pass("G01X1.Y1."), Close(true)], table))
  {
    KeyFirstCleaned();
    KeyFirstEvents();
  }

  /** The header line of `T0101` under a key the table does not know. */
  lemma UnknownFirstHeader(table: ToolTable)
    ensures !Known(table, "") ==> BuildToolBlock("T0101", "", table)[0] == "N100 " + UnknownTool
  {
    NFromToolT0101();
  }

  /**
   * A key comment placed before the first tool change is part of the
   * preamble and is dropped with it, so the first tool change finds no key:
   * its header is built from the empty key, whatever the tool table holds,
   * and the tool is shown as unknown unless the table has an entry for "".
   */
  lemma KeyBeforeFirstToolDropped(table: ToolTable)
    ensures Cleaned(["O1234", "(TOOL_KEY=DRILL1)", "T0101", "G01X1.Y1.", "M30"]) ==
              ("O1234", ["T0101", "G01X1.Y1.", "M30"])
    ensures Events(Kinds(["T0101", "G01X1.Y1.", "M30"])) ==
              [Header("T0101", ""), Pass("G01X1.Y1."), Close(true)]
    ensures Formatted(["O1234", "(TOOL_KEY=DRILL1)", "T0101", "G01X1.Y1.", "M30"], table) ==
              InsertStandardBlocks("O1234", BuildToolBlock("T0101", "", table) + ["G01X1.Y1.", RetractLine, DwellLine, ""])
    ensures !Known(table, "") ==>
              Formatted(["O1234", "(TOOL_KEY=DRILL1)", "T0101", "G01X1.Y1.", "M30"], table)[8] == "N100 " + UnknownTool
  {
    KeyFirstCleaned();
    KeyFirstEvents();
    KeyFirstFormatted(table);
    var body := BuildToolBlock("T0101", "", table) + ["G01X1.Y1.", RetractLine, DwellLine, ""];
    LoneToolRender("T0101", "", "G01X1.Y1.", table);
    var out := Formatted(["O1234", "(TOOL_KEY=DRILL1)", "T0101", "G01X1.Y1.", "M30"], table);
    assert out == InsertStandardBlocks("O1234", body);
    assert out[8] == body[0];
    UnknownFirstHeader(table);
  }

  /**
   * Every line between the start-up and shut-down blocks is a line of the
   * header block of a tool change found in the input, a retract, dwell or
   * empty line closing a tool path, or an input line, trimmed, that is not
   * a tool change, a comment or an end marker.
   */
  lemma FormattedBodyOrigin(raw: seq<string>, table: ToolTable, k: nat)
    ensures 8 <= k < |Formatted(raw, table)| - 5 ==>
      var line := Formatted(raw, table)[k];
      || line in [RetractLine, DwellLine, ""]
      || (exists i, key :: 0 <= i < |raw| && IsToolLine(Strip(raw[i])) &&
                           line in BuildToolBlock(Strip(raw[i]), key, table))
      || (exists i :: 0 <= i < |raw| && line == Strip(raw[i]) && Clean(line) && !IsToolLine(line) &&
                      IsRelevant(line) && !IsBanned(line))
  {
    var out := Formatted(raw, table);
    if 8 <= k < |out| - 5 {
      var body := Cleaned(raw).1;
      var final := Render(Events(Kinds(body)), table);
      assert out[8..|out| - 5] == final;
      var line := out[k];
      assert line == final[k - 8];
      BodyLineOrigin(body, table, line);
      if exists j, key :: 0 <= j < |body| && IsToolLine(Strip(body[j])) && line in BuildToolBlock(Strip(body[j]), key, table) {
        var j, key :| 0 <= j < |body| && IsToolLine(Strip(body[j])) && line in BuildToolBlock(Strip(body[j]), key, table);
        CleanedFromInput(raw, j);
        var i :| 0 <= i < |raw| && body[j] == Strip(raw[i]);
        StripIdempotent(raw[i]);
        assert Strip(body[j]) == Strip(raw[i]);
      } else if exists j :: 0 <= j < |body| && line == Strip(body[j]) && Classify(body[j]).Plain? {
        var j :| 0 <= j < |body| && line == Strip(body[j]) && Classify(body[j]).Plain?;
        CleanedFromInput(raw, j);
        CleanedPassedFilters(raw, j);
        var i :| 0 <= i < |raw| && body[j] == Strip(raw[i]);
        StripIdempotent(raw[i]);
        assert line == Strip(raw[i]);
      }
    }
  }

  /**
   * The program number is the default `O0000` or the trimmed text of one
   * of the input lines.
   */
  lemma ProgramNumberFromInput(raw: seq<string>)
    ensures Cleaned(raw).0 == DefaultProgramNumber ||
            exists j :: 0 <= j < |raw| && Cleaned(raw).0 == Strip(raw[j])
  {
    var kept := Relevant(raw);
    TidyAfterRelevantIsIdentity(raw);
    var lines := Unbanned(kept);
    ProgramNumberIsLast(lines);
    var j := LastProgramLine(lines);
    if j >= 0 {
      var line := lines[j];
      UnbannedExactly(kept, line);
      var k :| 0 <= k < |kept| && kept[k] == line;
      RelevantFromInput(raw, k);
      var i :| 0 <= i < |raw| && kept[k] == Strip(raw[i]);
      StripIdempotent(raw[i]);
      assert Cleaned(raw).0 == Strip(raw[i]);
    }
  }
}
