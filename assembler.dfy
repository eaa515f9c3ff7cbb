/**
 * The block assembler: the `while i < L` loop of `main`
 * (fusion_gcode_formatter.py:219-295), lifted into a method of its own. It
 * walks the lines left by `strip_preamble`, remembers the key of the latest
 * tool-key comment, replaces each tool change by the tool's header block,
 * closes each tool path exactly once, drops comments and end-of-program
 * markers and copies every other line.
 *
 * The loop first decides what a line is (`Classify`, in the order the
 * loop tests it). What the loop then does is described as a list of
 * events, a header, a close or a copied line, and `Render` spells the
 * events out as the lines the loop appends to `final`.
 */
module Assembler {
  import opened Wrappers
  import opened Text
  import opened Gcode
  import opened Tools

  /** How many lines after a tool change are searched for a key. */
  const LookAhead: nat := 30

  /** How many lines before a tool change are searched for a key. */
  const LookBack: nat := 15

  /** The optional stop that ends every tool path. */
  const DwellLine: string := "M01"

  function Min(a: int, b: int): int {
    if a < b then a else b
  }

  function Max(a: int, b: int): int {
    if a < b then b else a
  }

  // ---------------------------------------------------------------- lines and events

  /** What the loop makes of one line. */
  datatype Kind =
    | Comment(key: string)         // a parenthesised comment and the key it carries ("" when none)
    | ToolChange(toolLine: string) // a tool change such as `T0101`
    | EndMarker                    // `M99` or `M30`
    | Plain(line: string)          // anything else

  /** The kind of a line, decided in the order the loop makes its tests: comment, tool change, end marker. */
  function Classify(line: string): (k: Kind)
    ensures k.Comment? <==> IsComment(Strip(line))
    ensures k.Comment? ==> k.key == ParseToolKey(Strip(line)) && IsLowerCase(k.key) && IsTrimmed(k.key)
    ensures k.ToolChange? ==> k.toolLine == Strip(line) && IsToolLine(k.toolLine)
    ensures k.EndMarker? ==> IsEndMarker(Strip(line))
    ensures k.Plain? ==>
              k.line == Strip(line) && !IsComment(k.line) && !IsToolLine(k.line) && !IsEndMarker(k.line)
  {
    var s := Strip(line);
    if IsComment(s) then Comment(ParseToolKey(s))
    else if IsToolLine(s) then ToolChange(s)
    else if IsEndMarker(s) then EndMarker
    else Plain(s)
  }

  /** The kinds of all lines, in order. */
  function Kinds(lines: seq<string>): (ks: seq<Kind>)
    ensures |ks| == |lines|
  {
    if lines == [] then [] else Kinds(Init(lines)) + [Classify(Last(lines))]
  }

  /** One more line adds its kind. */
  lemma KindsSnoc(lines: seq<string>, line: string)
    ensures Kinds(lines + [line]) == Kinds(lines) + [Classify(line)]
  {
    assert Init(lines + [line]) == lines;
  }

  lemma {:induction false} KindAt(lines: seq<string>, j: nat)
    requires j < |lines|
    ensures Kinds(lines)[j] == Classify(lines[j])
  {
    if j < |lines| - 1 {
      KindAt(Init(lines), j);
    }
  }

  /** The key a line of this kind offers to the lookahead and lookback scans ("" for none). */
  function KeyOf(k: Kind): string {
    if k.Comment? then k.key else ""
  }

  /**
   * The key the lookahead and lookback scans read from a line: the parsed
   * key of a comment, "" for any other line (and for a comment without one).
   */
  function ProbeKey(line: string): string {
    var probe := Strip(line);
    if IsComment(probe) then ParseToolKey(probe) else ""
  }

  /** The key the classified line offers is the one the scans read from the line itself. */
  lemma KindKey(lines: seq<string>, j: nat)
    requires j < |lines|
    ensures KeyOf(Kinds(lines)[j]) == ProbeKey(lines[j])
  {
    KindAt(lines, j);
  }

  /** One piece of the assembled body. */
  datatype Emit =
    | Header(toolLine: string, key: string)  // the header block of a tool change, for the resolved key
    | Close(separated: bool)                 // retract and dwell ending a tool path, then an empty line if separated
    | Pass(line: string)                     // an input line copied unchanged

  /** The lines an event appends to the body. */
  function EmitLines(e: Emit, table: ToolTable): seq<string> {
    match e
    case Header(t, k) => BuildToolBlock(t, k, table)
    case Close(separated) => [RetractLine, DwellLine] + (if separated then [""] else [])
    case Pass(line) => [line]
  }

  /** The body spelled out: the lines of the events, in order. */
  function Render(es: seq<Emit>, table: ToolTable): seq<string> {
    if es == [] then [] else Render(Init(es), table) + EmitLines(Last(es), table)
  }

  lemma RenderSnoc(es: seq<Emit>, e: Emit, table: ToolTable)
    ensures Render(es + [e], table) == Render(es, table) + EmitLines(e, table)
    ensures e == Close(true) ==> EmitLines(e, table) == [RetractLine, DwellLine, ""]
    ensures e == Close(false) ==> EmitLines(e, table) == [RetractLine, DwellLine]
  {
    assert Init(es + [e]) == es;
    assert [RetractLine, DwellLine] + [] == [RetractLine, DwellLine];
  }

  lemma {:induction false} RenderAppend(a: seq<Emit>, b: seq<Emit>, table: ToolTable)
    ensures Render(a + b, table) == Render(a, table) + Render(b, table)
  {
    if b != [] {
      assert Init(a + b) == a + Init(b);
      assert Last(a + b) == Last(b);
      RenderAppend(a, Init(b), table);
    } else {
      assert a + b == a;
    }
  }

  // ---------------------------------------------------------------- key resolution

  /** No line in `ks[lo..hi]` offers a key. */
  predicate NoKeyIn(ks: seq<Kind>, lo: nat, hi: nat)
    requires lo <= hi <= |ks|
  {
    forall m :: lo <= m < hi ==> KeyOf(ks[m]) == ""
  }

  /** The first key offered in `ks[lo..hi]`, or "" if none is. */
  function FirstKeyIn(ks: seq<Kind>, lo: nat, hi: nat): string
    requires lo <= hi <= |ks|
    decreases hi - lo
  {
    if lo == hi then ""
    else if KeyOf(ks[lo]) != "" then KeyOf(ks[lo])
    else FirstKeyIn(ks, lo + 1, hi)
  }

  /** `FirstKeyIn` by position: the key of the first line offering one, and "" only when no line does. */
  lemma {:induction false} FirstKeyInSpec(ks: seq<Kind>, lo: nat, hi: nat)
    requires lo <= hi <= |ks|
    decreases hi - lo
    ensures var k := FirstKeyIn(ks, lo, hi);
      k != "" ==> exists j :: lo <= j < hi && KeyOf(ks[j]) == k && NoKeyIn(ks, lo, j)
    ensures FirstKeyIn(ks, lo, hi) == "" <==> NoKeyIn(ks, lo, hi)
  {
    if lo < hi {
      FirstKeyInSpec(ks, lo + 1, hi);
      var k := FirstKeyIn(ks, lo + 1, hi);
      if KeyOf(ks[lo]) != "" {
        assert NoKeyIn(ks, lo, lo);
      } else if k != "" {
        var j :| lo + 1 <= j < hi && KeyOf(ks[j]) == k && NoKeyIn(ks, lo + 1, j);
        assert NoKeyIn(ks, lo, j);
      }
    }
  }

  /** The last key offered in `ks[lo..hi]` (the nearest to `hi`), or "" if none is. */
  function NearestKeyIn(ks: seq<Kind>, lo: nat, hi: nat): string
    requires lo <= hi <= |ks|
    decreases hi - lo
  {
    if lo == hi then ""
    else if KeyOf(ks[hi - 1]) != "" then KeyOf(ks[hi - 1])
    else NearestKeyIn(ks, lo, hi - 1)
  }

  /** `NearestKeyIn` by position: the key of the last line offering one, and "" only when no line does. */
  lemma {:induction false} NearestKeyInSpec(ks: seq<Kind>, lo: nat, hi: nat)
    requires lo <= hi <= |ks|
    decreases hi - lo
    ensures var k := NearestKeyIn(ks, lo, hi);
      k != "" ==> exists j :: lo <= j < hi && KeyOf(ks[j]) == k && NoKeyIn(ks, j + 1, hi)
    ensures NearestKeyIn(ks, lo, hi) == "" <==> NoKeyIn(ks, lo, hi)
  {
    if lo < hi {
      NearestKeyInSpec(ks, lo, hi - 1);
      var k := NearestKeyIn(ks, lo, hi - 1);
      if KeyOf(ks[hi - 1]) != "" {
        assert NoKeyIn(ks, hi, hi);
      } else if k != "" {
        var j :| lo <= j < hi - 1 && KeyOf(ks[j]) == k && NoKeyIn(ks, j + 1, hi - 1);
        assert NoKeyIn(ks, j + 1, hi);
      }
    }
  }

  /** A line offering a key with none before it in the range is the one `FirstKeyIn` returns. */
  lemma {:induction false} FirstKeyAt(ks: seq<Kind>, lo: nat, hi: nat, j: nat)
    requires lo <= j < hi <= |ks|
    requires KeyOf(ks[j]) != "" && NoKeyIn(ks, lo, j)
    decreases j - lo
    ensures FirstKeyIn(ks, lo, hi) == KeyOf(ks[j])
  {
    if lo < j {
      assert KeyOf(ks[lo]) == "";
      assert NoKeyIn(ks, lo + 1, j);
      FirstKeyAt(ks, lo + 1, hi, j);
    }
  }

  /** A line offering a key with none after it in the range is the one `NearestKeyIn` returns. */
  lemma {:induction false} NearestKeyAt(ks: seq<Kind>, lo: nat, hi: nat, j: nat)
    requires lo <= j < hi <= |ks|
    requires KeyOf(ks[j]) != "" && NoKeyIn(ks, j + 1, hi)
    decreases hi - j
    ensures NearestKeyIn(ks, lo, hi) == KeyOf(ks[j])
  {
    if j < hi - 1 {
      assert KeyOf(ks[hi - 1]) == "";
      assert NoKeyIn(ks, j + 1, hi - 1);
      NearestKeyAt(ks, lo, hi - 1, j);
    }
  }

  /** One past the last line the lookahead scans after line `i`: up to 30 lines. */
  function AheadEnd(n: nat, i: nat): (e: nat)
    requires i < n
    ensures i < e <= n && e - (i + 1) <= LookAhead
    ensures e == n || e - (i + 1) == LookAhead
  {
    Min(i + 1 + LookAhead, n)
  }

  /** The first line the lookback scans before line `i`: up to 15 lines back. */
  function BackStart(i: nat): (b: nat)
    ensures b <= i && i - b <= LookBack
    ensures b == 0 || i - b == LookBack
  {
    Max(i - LookBack, 0)
  }

  /**
   * The key used for the tool change at line `i`: the pending key if there
   * is one, else the first key offered in the 30 lines after, else the
   * nearest key offered in the 15 lines before, else "".
   */
  function ResolveKey(ks: seq<Kind>, i: nat, pending: Option<string>): string
    requires i < |ks|
  {
    if pending.Some? && pending.value != "" then pending.value
    else
      var ahead := FirstKeyIn(ks, i + 1, AheadEnd(|ks|, i));
      if ahead != "" then ahead
      else if i > 0 then NearestKeyIn(ks, BackStart(i), i)
      else ""
  }

  // The order in which a tool change finds its key, stated by position.

  /** A pending key wins. */
  lemma KeyFromPending(ks: seq<Kind>, i: nat, pending: Option<string>)
    requires i < |ks|
    requires pending.Some? && pending.value != ""
    ensures ResolveKey(ks, i, pending) == pending.value
  {
  }

  /** Without one, the first comment with a key among the next 30 lines. */
  lemma KeyFromAhead(ks: seq<Kind>, i: nat, pending: Option<string>, j: nat)
    requires i < |ks| && i < j < AheadEnd(|ks|, i)
    requires pending.None? || pending.value == ""
    requires KeyOf(ks[j]) != "" && NoKeyIn(ks, i + 1, j)
    ensures ResolveKey(ks, i, pending) == KeyOf(ks[j])
  {
    FirstKeyAt(ks, i + 1, AheadEnd(|ks|, i), j);
  }

  /** Without either, the nearest comment with a key among the previous 15 lines. */
  lemma KeyFromBehind(ks: seq<Kind>, i: nat, pending: Option<string>, j: nat)
    requires BackStart(i) <= j < i < |ks|
    requires pending.None? || pending.value == ""
    requires NoKeyIn(ks, i + 1, AheadEnd(|ks|, i))
    requires KeyOf(ks[j]) != "" && NoKeyIn(ks, j + 1, i)
    ensures ResolveKey(ks, i, pending) == KeyOf(ks[j])
  {
    FirstKeyInSpec(ks, i + 1, AheadEnd(|ks|, i));
    NearestKeyAt(ks, BackStart(i), i, j);
  }

  /** With none of the three, no key at all. */
  lemma NoKeyFound(ks: seq<Kind>, i: nat, pending: Option<string>)
    requires i < |ks|
    requires pending.None? || pending.value == ""
    requires NoKeyIn(ks, i + 1, AheadEnd(|ks|, i)) && NoKeyIn(ks, BackStart(i), i)
    ensures ResolveKey(ks, i, pending) == ""
  {
    FirstKeyInSpec(ks, i + 1, AheadEnd(|ks|, i));
    if i > 0 {
      NearestKeyInSpec(ks, BackStart(i), i);
    }
  }

  // ---------------------------------------------------------------- the assembly loop

  /** The loop's variables: what has been emitted so far, `active_tool` and `current_tool_key`. */
  datatype AsmState = AsmState(events: seq<Emit>, active: bool, pending: Option<string>)

  /** One turn of the loop, on line `i`. */
  function Step(ks: seq<Kind>, i: nat, st: AsmState): AsmState
    requires i < |ks|
  {
    match ks[i]
    case Comment(parsed) =>
      if parsed != "" then st.(pending := Some(parsed)) else st
    case ToolChange(t) =>
      var closing := if st.active then [Close(true)] else [];
      AsmState(st.events + closing + [Header(t, ResolveKey(ks, i, st.pending))], true, None)
    case EndMarker =>
      if st.active then AsmState(st.events + [Close(true)], false, st.pending) else st
    case Plain(s) =>
      st.(events := st.events + [Pass(s)])
  }

  /** The loop's variables after it has read the first `n` lines. */
  function Run(ks: seq<Kind>, n: nat): AsmState
    requires n <= |ks|
  {
    if n == 0 then AsmState([], false, None) else Step(ks, n - 1, Run(ks, n - 1))
  }

  lemma RunNext(ks: seq<Kind>, i: nat)
    requires i < |ks|
    ensures Run(ks, i + 1) == Step(ks, i, Run(ks, i))
  {
  }

  /** No end-of-program marker among `ks[lo..hi]`. */
  predicate NoEndIn(ks: seq<Kind>, lo: nat, hi: nat)
    requires lo <= hi <= |ks|
  {
    forall m :: lo <= m < hi ==> !ks[m].EndMarker?
  }

  /**
   * `active_tool` after `n` lines: true exactly when some tool change among
   * them has no `M99`/`M30` after it.
   */
  lemma {:induction false} ActiveIffOpenTool(ks: seq<Kind>, n: nat)
    requires n <= |ks|
    ensures Run(ks, n).active <==> exists j :: 0 <= j < n && ks[j].ToolChange? && NoEndIn(ks, j + 1, n)
  {
    if n > 0 {
      ActiveIffOpenTool(ks, n - 1);
      var k := ks[n - 1];
      if k.ToolChange? {
        assert NoEndIn(ks, n, n);
      } else if k.EndMarker? {
        forall j | 0 <= j < n && ks[j].ToolChange?
          ensures !NoEndIn(ks, j + 1, n)
        {
          assert ks[n - 1].EndMarker?;
        }
      } else {
        if Run(ks, n - 1).active {
          var j :| 0 <= j < n - 1 && ks[j].ToolChange? && NoEndIn(ks, j + 1, n - 1);
          assert NoEndIn(ks, j + 1, n);
        } else {
          forall j | 0 <= j < n && ks[j].ToolChange?
            ensures !NoEndIn(ks, j + 1, n)
          {
            assert j < n - 1 && !NoEndIn(ks, j + 1, n - 1);
          }
        }
      }
    }
  }

  /** Everything the assembler emits: the loop's events, then a last close, without an empty line, if a tool path is still open. */
  function Events(ks: seq<Kind>): seq<Emit> {
    var st := Run(ks, |ks|);
    st.events + (if st.active then [Close(false)] else [])
  }

  // ---------------------------------------------------------------- what the assembly promises

  /** How many of the first `n` lines are tool changes. */
  function CountTools(ks: seq<Kind>, n: nat): nat
    requires n <= |ks|
  {
    if n == 0 then 0 else CountTools(ks, n - 1) + (if ks[n - 1].ToolChange? then 1 else 0)
  }

  /** The headers and closes among the events, in order: true for a header, false for a close. */
  function Skeleton(es: seq<Emit>): seq<bool> {
    if es == [] then [] else Skeleton(Init(es)) + Bone(Last(es))
  }

  /** An event's part of the skeleton. */
  function Bone(e: Emit): seq<bool> {
    match e
    case Header(_, _) => [true]
    case Close(_) => [false]
    case Pass(_) => []
  }

  /** `n` tool paths, each opened by a header and then closed: header, close, header, close, ... */
  function Alternation(n: nat): (r: seq<bool>)
    ensures |r| == 2 * n
  {
    if n == 0 then [] else Alternation(n - 1) + [true, false]
  }

  /** How many closes lack the empty line after them. */
  function Unseparated(es: seq<Emit>): nat {
    if es == [] then 0 else Unseparated(Init(es)) + (if Last(es) == Close(false) then 1 else 0)
  }

  lemma SkeletonSnoc(es: seq<Emit>, e: Emit)
    ensures Skeleton(es + [e]) == Skeleton(es) + Bone(e)
    ensures Unseparated(es + [e]) == Unseparated(es) + (if e == Close(false) then 1 else 0)
  {
    assert Init(es + [e]) == es;
  }

  lemma {:induction false} NoUnseparated(es: seq<Emit>)
    requires Unseparated(es) == 0
    ensures forall k :: 0 <= k < |es| ==> es[k] != Close(false)
  {
    if es != [] {
      NoUnseparated(Init(es));
      assert forall k :: 0 <= k < |es| - 1 ==> es[k] == Init(es)[k];
    }
  }

  lemma AlternationNext(c: nat)
    requires c >= 1
    ensures Alternation(c - 1) + [true] + [false, true] == Alternation(c) + [true]
    ensures Alternation(c - 1) + [true] + [false] == Alternation(c)
  {
    assert Alternation(c) == Alternation(c - 1) + [true, false];
  }

  /** What one turn adds to the skeleton, and how it moves `active_tool`. */
  lemma StepShape(ks: seq<Kind>, i: nat, st: AsmState)
    requires i < |ks|
    ensures Step(ks, i, st).active == if ks[i].ToolChange? then true else if ks[i].EndMarker? then false else st.active
    ensures Skeleton(Step(ks, i, st).events) == Skeleton(st.events) +
      if ks[i].ToolChange? then (if st.active then [false, true] else [true])
      else if ks[i].EndMarker? && st.active then [false] else []
    ensures Unseparated(Step(ks, i, st).events) == Unseparated(st.events)
  {
    match ks[i]
    case Comment(_) =>
    case ToolChange(t) =>
      var h := Header(t, ResolveKey(ks, i, st.pending));
      if st.active {
        SkeletonSnoc(st.events, Close(true));
        SkeletonSnoc(st.events + [Close(true)], h);
      } else {
        SkeletonSnoc(st.events, h);
        assert st.events + [] + [h] == st.events + [h];
      }
    case EndMarker =>
      if st.active {
        SkeletonSnoc(st.events, Close(true));
      }
    case Plain(line) =>
      SkeletonSnoc(st.events, Pass(line));
  }

  /**
   * The loop's state after `c` tool changes: every tool path but the open
   * one is closed, and only with an empty line after it.
   */
  predicate Shaped(st: AsmState, c: nat) {
    && (st.active ==> c >= 1)
    && Skeleton(st.events) == (if st.active then Alternation(c - 1) + [true] else Alternation(c))
    && Unseparated(st.events) == 0
  }

  /** A move of the kind `StepShape` describes keeps the shape, counting a tool change. */
  lemma ShapeMove(st: AsmState, st': AsmState, c: nat, c': nat, tool: bool, end: bool)
    requires Shaped(st, c) && c' == c + if tool then 1 else 0
    requires st'.active == if tool then true else if end then false else st.active
    requires Skeleton(st'.events) == Skeleton(st.events) +
      if tool then (if st.active then [false, true] else [true])
      else if end && st.active then [false] else []
    requires Unseparated(st'.events) == Unseparated(st.events)
    ensures Shaped(st', c')
  {
    if st.active {
      AlternationNext(c);
    }
  }

  lemma StepKeepsShape(ks: seq<Kind>, i: nat, st: AsmState, c: nat, c': nat)
    requires i < |ks| && Shaped(st, c) && c' == c + if ks[i].ToolChange? then 1 else 0
    ensures Shaped(Step(ks, i, st), c')
  {
    StepShape(ks, i, st);
    ShapeMove(st, Step(ks, i, st), c, c', ks[i].ToolChange?, ks[i].EndMarker?);
  }

  lemma {:induction false} RunShape(ks: seq<Kind>, n: nat)
    requires n <= |ks|
    ensures Shaped(Run(ks, n), CountTools(ks, n))
  {
    if n > 0 {
      RunShape(ks, n - 1);
      StepKeepsShape(ks, n - 1, Run(ks, n - 1), CountTools(ks, n - 1), CountTools(ks, n));
    }
  }

  /**
   * Every tool path is opened by its tool's header and closed exactly once:
   * the headers and closes alternate, one pair per tool change, and only the
   * last close, the one the end of the input forces, lacks the empty line.
   */
  lemma ToolPathsClosedOnce(ks: seq<Kind>)
    ensures Skeleton(Events(ks)) == Alternation(CountTools(ks, |ks|))
    ensures forall k :: 0 <= k < |Events(ks)| - 1 ==> Events(ks)[k] != Close(false)
  {
    var st := Run(ks, |ks|);
    RunShape(ks, |ks|);
    NoUnseparated(st.events);
    if st.active {
      SkeletonSnoc(st.events, Close(false));
      AlternationNext(CountTools(ks, |ks|));
      forall k | 0 <= k < |Events(ks)| - 1
        ensures Events(ks)[k] != Close(false)
      {
        assert Events(ks)[k] == st.events[k];
      }
    } else {
      assert Events(ks) == st.events;
    }
  }

  /** The lines the events copy, in order. */
  function Passed(es: seq<Emit>): seq<string> {
    if es == [] then [] else Passed(Init(es)) + (if Last(es).Pass? then [Last(es).line] else [])
  }

  /** The plain lines among the first `n`, in order. */
  function PlainLines(ks: seq<Kind>, n: nat): seq<string>
    requires n <= |ks|
  {
    if n == 0 then [] else PlainLines(ks, n - 1) + (if ks[n - 1].Plain? then [ks[n - 1].line] else [])
  }

  lemma PassedSnoc(es: seq<Emit>, e: Emit)
    ensures Passed(es + [e]) == Passed(es) + (if e.Pass? then [e.line] else [])
  {
    assert Init(es + [e]) == es;
  }

  lemma {:induction false} RunPasses(ks: seq<Kind>, n: nat)
    requires n <= |ks|
    ensures Passed(Run(ks, n).events) == PlainLines(ks, n)
  {
    if n > 0 {
      RunPasses(ks, n - 1);
      var st := Run(ks, n - 1);
      match ks[n - 1]
      case Comment(_) =>
      case ToolChange(t) =>
        var h := Header(t, ResolveKey(ks, n - 1, st.pending));
        if st.active {
          PassedSnoc(st.events, Close(true));
          PassedSnoc(st.events + [Close(true)], h);
        } else {
          PassedSnoc(st.events, h);
          assert st.events + [] + [h] == st.events + [h];
        }
      case EndMarker =>
        if st.active {
          PassedSnoc(st.events, Close(true));
        }
      case Plain(line) =>
        PassedSnoc(st.events, Pass(line));
    }
  }

  /** Every other line is copied, all of them and in their order, and nothing else is copied. */
  lemma PassThrough(ks: seq<Kind>)
    ensures Passed(Events(ks)) == PlainLines(ks, |ks|)
  {
    RunPasses(ks, |ks|);
    var st := Run(ks, |ks|);
    if st.active {
      PassedSnoc(st.events, Close(false));
    } else {
      assert Events(ks) == st.events;
    }
  }

  /** The latest key offered by a comment among the first `n` lines since the latest tool change. */
  function LatestKey(ks: seq<Kind>, n: nat): Option<string>
    requires n <= |ks|
  {
    if n == 0 then None
    else match ks[n - 1]
      case ToolChange(_) => None
      case Comment(k) => if k != "" then Some(k) else LatestKey(ks, n - 1)
      case _ => LatestKey(ks, n - 1)
  }

  /** No tool change among `ks[lo..hi]`. */
  predicate NoToolIn(ks: seq<Kind>, lo: nat, hi: nat)
    requires lo <= hi <= |ks|
  {
    forall m :: lo <= m < hi ==> !ks[m].ToolChange?
  }

  /** `LatestKey` by position: the key of the last comment offering one after the last tool change. */
  lemma {:induction false} LatestKeyIsLatest(ks: seq<Kind>, n: nat)
    requires n <= |ks|
    ensures LatestKey(ks, n).Some? ==>
              exists j :: 0 <= j < n && KeyOf(ks[j]) == LatestKey(ks, n).value != "" &&
                NoToolIn(ks, j + 1, n) && NoKeyIn(ks, j + 1, n)
    ensures LatestKey(ks, n).None? ==>
              forall j :: 0 <= j < n && KeyOf(ks[j]) != "" ==> !NoToolIn(ks, j + 1, n)
  {
    if n > 0 {
      LatestKeyIsLatest(ks, n - 1);
      if ks[n - 1].ToolChange? {
        forall j | 0 <= j < n && KeyOf(ks[j]) != "" ensures !NoToolIn(ks, j + 1, n) {
          assert ks[n - 1].ToolChange?;
        }
      } else if KeyOf(ks[n - 1]) != "" {
        assert NoToolIn(ks, n, n) && NoKeyIn(ks, n, n);
      } else if LatestKey(ks, n - 1).Some? {
        var j :| 0 <= j < n - 1 && KeyOf(ks[j]) == LatestKey(ks, n - 1).value != "" &&
          NoToolIn(ks, j + 1, n - 1) && NoKeyIn(ks, j + 1, n - 1);
        assert NoToolIn(ks, j + 1, n) && NoKeyIn(ks, j + 1, n);
      } else {
        forall j | 0 <= j < n && KeyOf(ks[j]) != "" ensures !NoToolIn(ks, j + 1, n) {
          assert !NoToolIn(ks, j + 1, n - 1);
        }
      }
    }
  }

  /** `current_tool_key` is the latest key offered since the latest tool change, and there is no other. */
  lemma {:induction false} PendingIsLatestKey(ks: seq<Kind>, n: nat)
    requires n <= |ks|
    ensures Run(ks, n).pending == LatestKey(ks, n)
  {
    if n > 0 {
      PendingIsLatestKey(ks, n - 1);
    }
  }

  /** The events only grow as the loop goes on. */
  lemma {:induction false} RunGrows(ks: seq<Kind>, n: nat, m: nat)
    requires n <= m <= |ks|
    ensures Run(ks, n).events <= Run(ks, m).events
  {
    if n < m {
      RunGrows(ks, n, m - 1);
    }
  }

  /** Each tool change gets its header, for the key resolved from the latest key since the previous tool change. */
  lemma HeaderForEachTool(ks: seq<Kind>, i: nat)
    requires i < |ks| && ks[i].ToolChange?
    ensures Header(ks[i].toolLine, ResolveKey(ks, i, LatestKey(ks, i))) in Events(ks)
  {
    PendingIsLatestKey(ks, i);
    RunGrows(ks, i + 1, |ks|);
    var h := Header(ks[i].toolLine, ResolveKey(ks, i, LatestKey(ks, i)));
    var evs := Run(ks, i + 1).events;
    assert evs[|evs| - 1] == h;
    assert Run(ks, |ks|).events[|evs| - 1] == h;
  }

  /**
   * A tool path that names the next tool in a comment lends that name to
   * itself: when the first tool change has no key of its own, the lookahead
   * finds the comment meant for the second, and both headers use it.
   */
  lemma LookaheadBorrowsNextKey(first: string, key: string, second: string)
    requires key != ""
    ensures Events([ToolChange(first), Comment(key), ToolChange(second)]) ==
      [Header(first, key), Close(true), Header(second, key), Close(false)]
  {
    var ks := [ToolChange(first), Comment(key), ToolChange(second)];
    assert FirstKeyIn(ks, 1, 3) == key;
    assert ResolveKey(ks, 0, None) == key;
    assert Run(ks, 1) == AsmState([Header(first, key)], true, None);
    assert Run(ks, 2) == AsmState([Header(first, key)], true, Some(key));
    assert ResolveKey(ks, 2, Some(key)) == key;
  }

  /** What the body may not contain: an end-of-program marker or a comment. */
  predicate Clean(line: string) {
    !IsEndMarker(line) && !IsComment(line)
  }

  /** The events of lines of these kinds copy only clean lines and open only real tool changes. */
  predicate WellFormed(e: Emit) {
    (e.Pass? ==> Clean(e.line)) && (e.Header? ==> IsToolLine(e.toolLine))
  }

  /** A kind of line `Classify` can produce, as far as the body is concerned. */
  predicate Sound(k: Kind) {
    (k.Plain? ==> Clean(k.line)) && (k.ToolChange? ==> IsToolLine(k.toolLine))
  }

  lemma {:induction false} KindsSound(lines: seq<string>)
    ensures forall j :: 0 <= j < |lines| ==> Sound(Kinds(lines)[j])
  {
    forall j | 0 <= j < |lines| ensures Sound(Kinds(lines)[j]) {
      KindAt(lines, j);
    }
  }

  lemma {:induction false} RunWellFormed(ks: seq<Kind>, n: nat)
    requires n <= |ks|
    requires forall j :: 0 <= j < |ks| ==> Sound(ks[j])
    ensures forall e :: e in Run(ks, n).events ==> WellFormed(e)
  {
    if n > 0 {
      RunWellFormed(ks, n - 1);
      assert Sound(ks[n - 1]);
    }
  }

  lemma EmitLinesClean(e: Emit, table: ToolTable)
    requires WellFormed(e)
    ensures forall line :: line in EmitLines(e, table) ==> Clean(line)
  {
    match e
    case Header(t, k) =>
      var block := BuildToolBlock(t, k, table);
      assert block[0][0] == 'N';
      if Known(table, k) {
        assert block[4][0] == 'G';
      }
      forall line | line in block ensures Clean(line) {
        var m :| 0 <= m < |block| && block[m] == line;
        assert m == 0 || m == 1 || m == 2 || m == 3 || m == 4;
      }
    case Close(_) =>
    case Pass(_) =>
  }

  lemma {:induction false} RenderClean(es: seq<Emit>, table: ToolTable)
    requires forall e :: e in es ==> WellFormed(e)
    ensures forall line :: line in Render(es, table) ==> Clean(line)
  {
    if es != [] {
      RenderClean(Init(es), table);
      EmitLinesClean(Last(es), table);
    }
  }

  /** The assembled body has no `M99`/`M30` and no comment: markers are dropped and comments only feed the keys. */
  lemma BodyIsClean(lines: seq<string>, table: ToolTable)
    ensures forall line :: line in Render(Events(Kinds(lines)), table) ==> Clean(line)
  {
    var ks := Kinds(lines);
    KindsSound(lines);
    RunWellFormed(ks, |ks|);
    RenderClean(Events(ks), table);
  }

  // ---------------------------------------------------------------- where the body comes from

  /** Every line of the rendered body is a line of one of the events. */
  lemma {:induction false} RenderMember(es: seq<Emit>, table: ToolTable, line: string)
    requires line in Render(es, table)
    ensures exists i :: 0 <= i < |es| && line in EmitLines(es[i], table)
  {
    var p := Init(es);
    if line in Render(p, table) {
      RenderMember(p, table, line);
      var i :| 0 <= i < |p| && line in EmitLines(p[i], table);
      assert es[i] == p[i];
    } else {
      assert line in EmitLines(es[|es| - 1], table);
    }
  }

  /** An event's origin among the lines: a copied line is a plain line, a header opens a tool change. */
  predicate FromKinds(e: Emit, ks: seq<Kind>) {
    && (e.Pass? ==> exists j :: 0 <= j < |ks| && ks[j] == Plain(e.line))
    && (e.Header? ==> exists j :: 0 <= j < |ks| && ks[j] == ToolChange(e.toolLine))
  }

  lemma {:induction false} RunOrigins(ks: seq<Kind>, n: nat)
    requires n <= |ks|
    ensures forall e :: e in Run(ks, n).events ==> FromKinds(e, ks)
  {
    if n > 0 {
      RunOrigins(ks, n - 1);
      var st := Run(ks, n - 1);
      match ks[n - 1]
      case Comment(_) =>
      case ToolChange(t) =>
        assert FromKinds(Header(t, ResolveKey(ks, n - 1, st.pending)), ks);
      case EndMarker =>
      case Plain(line) =>
        assert FromKinds(Pass(line), ks);
    }
  }

  /** Every event the assembler emits comes from its own line. */
  lemma EventsOrigins(ks: seq<Kind>)
    ensures forall e :: e in Events(ks) ==> FromKinds(e, ks)
  {
    RunOrigins(ks, |ks|);
  }

  /**
   * Every line of the assembled body is a line of the header block of a
   * tool change among the input lines, a retract, dwell or empty line
   * closing a tool path, or an input line, trimmed, that is neither a
   * comment, a tool change nor an end marker.
   */
  lemma BodyLineOrigin(lines: seq<string>, table: ToolTable, line: string)
    ensures line in Render(Events(Kinds(lines)), table) ==>
            || line in [RetractLine, DwellLine, ""]
            || (exists j, key :: 0 <= j < |lines| && IsToolLine(Strip(lines[j])) &&
                                 line in BuildToolBlock(Strip(lines[j]), key, table))
            || (exists j :: 0 <= j < |lines| && line == Strip(lines[j]) && Classify(lines[j]).Plain?)
  {
    var ks := Kinds(lines);
    var es := Events(ks);
    if line in Render(es, table) {
      RenderMember(es, table, line);
      var i :| 0 <= i < |es| && line in EmitLines(es[i], table);
      EventsOrigins(ks);
      assert FromKinds(es[i], ks);
      match es[i]
      case Header(t, key) =>
        var j :| 0 <= j < |ks| && ks[j] == ToolChange(t);
        KindAt(lines, j);
        assert line in BuildToolBlock(Strip(lines[j]), key, table);
      case Close(_) =>
      case Pass(l) =>
        var j :| 0 <= j < |ks| && ks[j] == Plain(l);
        KindAt(lines, j);
    }
  }

  /** The tests the loop makes of each line, made for every line up front. */
  method ClassifyAll(lines: seq<string>) returns (ks: seq<Kind>)
    ensures ks == Kinds(lines)
  {
    ks := [];
    for i := 0 to |lines|
      invariant ks == Kinds(lines[..i])
    {
      assert Init(lines[..i + 1]) == lines[..i];
      ks := ks + [Classify(lines[i])];
    }
    assert lines[..|lines|] == lines;
  }

  /** The inner `for j` lookahead loop (fusion_gcode_formatter.py:253-259). */
  method ScanAhead(ks: seq<Kind>, i: nat) returns (key: string)
    requires i < |ks|
    ensures key == FirstKeyIn(ks, i + 1, AheadEnd(|ks|, i))
  {
    var hi := Min(i + 31, |ks|);
    var j := i + 1;
    while j < hi
      invariant i + 1 <= j <= hi
      invariant FirstKeyIn(ks, j, hi) == FirstKeyIn(ks, i + 1, hi)
    {
      if KeyOf(ks[j]) != "" {
        return KeyOf(ks[j]);
      }
      j := j + 1;
    }
    return "";
  }

  /** The inner `for j` lookback loop (fusion_gcode_formatter.py:263-269), nearest line first. */
  method ScanBack(ks: seq<Kind>, i: nat) returns (key: string)
    requires i < |ks|
    ensures key == NearestKeyIn(ks, BackStart(i), i)
  {
    var lo := Max(i - 16, -1) + 1;
    var j := i - 1;
    while j >= lo
      invariant lo - 1 <= j < i
      invariant NearestKeyIn(ks, lo, j + 1) == NearestKeyIn(ks, lo, i)
    {
      if KeyOf(ks[j]) != "" {
        return KeyOf(ks[j]);
      }
      j := j - 1;
    }
    return "";
  }

  /** The key for the tool change at line `i` (fusion_gcode_formatter.py:248-269): the pending key, else the lookahead, else the lookback. */
  method FindKey(ks: seq<Kind>, i: nat, pending: Option<string>) returns (key: string)
    requires i < |ks|
    ensures key == ResolveKey(ks, i, pending)
  {
    key := pending.GetOr("");
    if key == "" {
      key := ScanAhead(ks, i);
    }
    if key == "" && i > 0 {
      key := ScanBack(ks, i);
    }
  }

  /** What a tool change appends to the body: the close of the open path, if any, then the header block. */
  lemma ToolStepRender(ks: seq<Kind>, i: nat, st: AsmState, key: string, table: ToolTable)
    requires i < |ks| && ks[i].ToolChange? && key == ResolveKey(ks, i, st.pending)
    ensures Render(Step(ks, i, st).events, table) == Render(st.events, table) +
      (if st.active then [RetractLine, DwellLine, ""] else []) + BuildToolBlock(ks[i].toolLine, key, table)
  {
    var h := Header(ks[i].toolLine, key);
    if st.active {
      RenderSnoc(st.events, Close(true), table);
      RenderSnoc(st.events + [Close(true)], h, table);
    } else {
      assert st.events + [] + [h] == st.events + [h];
      RenderSnoc(st.events, h, table);
    }
  }

  /** A tool change: close the open tool path, if any, then emit the header block for the resolved key. */
  method OpenTool(ks: seq<Kind>, i: nat, ghost st: AsmState, active: bool, pending: Option<string>, table: ToolTable)
    returns (emitted: seq<string>)
    requires i < |ks| && ks[i].ToolChange? && st.active == active && st.pending == pending
    ensures Render(Step(ks, i, st).events, table) == Render(st.events, table) + emitted
  {
    emitted := [];
    if active {
      emitted := [RetractLine, DwellLine, ""];
    }
    var key := FindKey(ks, i, pending);
    emitted := emitted + BuildToolBlock(ks[i].toolLine, key, table);
    ToolStepRender(ks, i, st, key, table);
  }

  /**
   * One turn of the loop on line `i`: the lines it appends to `final` and
   * the new `active_tool` and `current_tool_key`.
   */
  method VisitLine(ks: seq<Kind>, i: nat, ghost st: AsmState, active: bool, pending: Option<string>, table: ToolTable)
    returns (emitted: seq<string>, nowActive: bool, nowPending: Option<string>)
    requires i < |ks| && st.active == active && st.pending == pending
    ensures Step(ks, i, st).active == nowActive && Step(ks, i, st).pending == nowPending
    ensures Render(Step(ks, i, st).events, table) == Render(st.events, table) + emitted
  {
    emitted, nowActive, nowPending := [], active, pending;
    match ks[i] {
      case Comment(parsed) =>
        if parsed != "" {
          nowPending := Some(parsed);
        }
        assert Render(st.events, table) + [] == Render(st.events, table);
        assert Render(Step(ks, i, st).events, table) == Render(st.events, table) + emitted;
      case ToolChange(_) =>
        emitted := OpenTool(ks, i, st, active, pending, table);
        nowActive, nowPending := true, None;
      case EndMarker =>
        if active {
          emitted := [RetractLine, DwellLine, ""];
          RenderSnoc(st.events, Close(true), table);
          nowActive := false;
        } else {
          assert Render(st.events, table) + [] == Render(st.events, table);
        }
      case Plain(s) =>
        emitted := [s];
        RenderSnoc(st.events, Pass(s), table);
        assert Render(Step(ks, i, st).events, table) == Render(st.events, table) + emitted;
    }
  }

  /** The assembly loop over the classified lines, with the final close after it. */
  method AssembleKinds(ks: seq<Kind>, table: ToolTable) returns (final: seq<string>)
    ensures final == Render(Events(ks), table)
  {
    final := [];
    var pending: Option<string> := None;
    var active := false;
    var i := 0;
    while i < |ks|
      invariant 0 <= i <= |ks|
      invariant final == Render(Run(ks, i).events, table)
      invariant active == Run(ks, i).active && pending == Run(ks, i).pending
    {
      var emitted;
      emitted, active, pending := VisitLine(ks, i, Run(ks, i), active, pending, table);
      RunNext(ks, i);
      final := final + emitted;
      i := i + 1;
    }
    if active {
      final := final + [RetractLine, DwellLine];
      RenderSnoc(Run(ks, i).events, Close(false), table);
    } else {
      assert Events(ks) == Run(ks, i).events;
    }
  }

  /** The assembly loop of `main` (fusion_gcode_formatter.py:219-295). */
  method Assemble(lines: seq<string>, table: ToolTable) returns (final: seq<string>)
    ensures final == Render(Events(Kinds(lines)), table)
  {
    var ks := ClassifyAll(lines);
    final := AssembleKinds(ks, table);
  }
}
