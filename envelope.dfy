/**
 * `insert_standard_blocks` (fusion_gcode_formatter.py:175-193): the fixed
 * start-up lines, the program number among them, and the fixed shut-down
 * lines around the assembled body.
 */
module Envelope {

  /** Start marker, `%`, the program number, four set-up lines, an empty line. */
  function StartBlock(programNumber: string): seq<string> {
    ["START", "%", programNumber, "N01G50S2000", "N02G28U0", "N03G28W0", "N04M00", ""]
  }

  /** An empty line, spindle stop, retract and clamp, end marker, `%`. */
  const EndBlock: seq<string> := ["", "M05S1500", "G28U0W0M40", "M99", "%"]

  /**
   * The wrapped program: the body sits unchanged between eight start-up
   * lines and five shut-down lines, and the program number is the third line,
   * so both can be read back from the result.
   */
  function InsertStandardBlocks(programNumber: string, body: seq<string>): (out: seq<string>)
    ensures |out| == |body| + 13
    ensures out[..8] == StartBlock(programNumber) && out[2] == programNumber
    ensures out[8..|out| - 5] == body
    ensures out[|out| - 5..] == EndBlock
  {
    StartBlock(programNumber) + body + EndBlock
  }

  /** Different program numbers or bodies give different programs. */
  lemma InsertStandardBlocksInjective(p1: string, b1: seq<string>, p2: string, b2: seq<string>)
    requires InsertStandardBlocks(p1, b1) == InsertStandardBlocks(p2, b2)
    ensures p1 == p2 && b1 == b2
  {
    var out := InsertStandardBlocks(p1, b1);
    assert out[2] == p1 && out[2] == p2;
    assert out[8..|out| - 5] == b1 && out[8..|out| - 5] == b2;
  }
}
