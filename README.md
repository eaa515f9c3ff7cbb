# FusionFormatter in Dafny

FusionFormatter post-processes the G-code that Fusion 360 exports for a lathe:

- it keeps only the machining lines;
- it removes set-up codes and everything before the first tool change;
- it replaces each tool change with a per-tool header block, built from a tool table and a `TOOL_KEY` comment found near the tool change;
- it closes each tool path with a retract and an optional stop;
- it wraps the result in fixed start-up and shut-down blocks.

This project models the core of `fusion_gcode_formatter.py` and proves properties about it.

Modules:

| module | file | models |
|---|---|---|
| `Text` | `text.dfy` | the Python built-ins the formatter relies on (`strip`, `strip(chars)`, `lower`, `isdigit`, `int`, `str`), on ASCII |
| `Filters` | `filters.dfy` | `keep_relevant_lines`, `tidy_spacing`, `remove_unwanted_gcodes` |
| `Gcode` | `gcode.dfy` | the line tests: program number, tool change, comment, end marker |
| `Preamble` | `preamble.dfy` | `strip_preamble` |
| `Tools` | `tools.dfy` | `n_from_tool`, `parse_tool_key` (with its regular expression written out as a matcher) and `build_tool_block` |
| `Envelope` | `envelope.dfy` | `insert_standard_blocks` |
| `Assembler` | `assembler.dfy` | the `while i < L` loop of `main`: key tracking, the 30-line lookahead and 15-line lookback, tool headers, closing tool paths, dropping comments and markers |
| `Formatter` | `formatter.dfy` | the whole pipeline of `main`, from the input lines to the output lines |

How the loops are modelled:

- Each loop of the source is a Dafny method with the same loop.
- Each such method is proved equal to a reference function that builds the same result one input line at a time.
- The properties are lemmas about those reference functions.
- The assembly loop's reference function describes its output as a list of events: a tool header, a close of a tool path, or a copied line. `Render` spells the events out as the lines the loop appends.

Points of the code that are easy to misread, and that the model follows exactly:

- The program number is the **last** `O<digits>` line: each later one overwrites the earlier (fusion_gcode_formatter.py:101-102).
- A tool change is `T` followed by digits in positions 1-2 only (`s[1:3].isdigit()`), so `T7` and `T07X` count (fusion_gcode_formatter.py:103, 238).
- There are **eight** banned prefixes, `G80 G54 G50 G90 G95 G18 G96 G97` (fusion_gcode_formatter.py:80).
- The shut-down block is five lines, starting with an empty line (fusion_gcode_formatter.py:186-192).
- A key comment before the first tool change is discarded with the preamble, so the first tool can take its key only from the 30 lines after it: `(TOOL_KEY=DRILL1)` between `O1234` and `T0101` gives `T0101` no key (fusion_gcode_formatter.py:103-106, 252-262; see `Formatter.KeyBeforeFirstToolDropped`).
- The start-up block has four set-up lines, `N01G50S2000` to `N04M00`, after `START`, `%` and the program number, and before an empty line (fusion_gcode_formatter.py:176-185).

## Model

| member | source | states |
|---|---|---|
| Text.LeadLength | fusion_gcode_formatter.py:138 | the length of the longest prefix made only of the given characters: every character before it is in the set and the one at it is not |
| Text.TrailLength | fusion_gcode_formatter.py:138 | the same for the longest suffix |
| Text.TrimSet | fusion_gcode_formatter.py:138 | `strip(chars)`: the result is no longer than the input and neither of its ends is one of the characters |
| Text.TrimSetIsSlice | fusion_gcode_formatter.py:138 | `strip(chars)` keeps a slice of the input and removes only characters of the set, from either end |
| Text.TrimSetKeeps | fusion_gcode_formatter.py:138 | a string whose ends are outside the set is left unchanged |
| Text.Strip | fusion_gcode_formatter.py:51 | `strip()`: no white space at either end of the result |
| Text.StripIdempotent | fusion_gcode_formatter.py:51 | stripping twice is stripping once |
| Text.Lower | fusion_gcode_formatter.py:144 | `lower()`: same length, each character lowered |
| Text.LowerChar | fusion_gcode_formatter.py:144 | a lowered character is not upper case, is white space exactly when the original is, is the original except for an upper-case letter, and an upper-case letter moves up by 32 code points to its lower-case form |
| Text.LowerKeepsTrimmed | fusion_gcode_formatter.py:144 | lowering a trimmed string leaves it trimmed and makes it lower case |
| Text.Decimal | fusion_gcode_formatter.py:127 | `str(n)`: digits only, with no leading zero unless the number is 0 |
| Text.ValueOf | fusion_gcode_formatter.py:124 | `int` on ASCII digits: the value of the digits, most significant first; `Text.DecimalRoundTrip` reads back `str` |
| Text.DecimalRoundTrip | fusion_gcode_formatter.py:124-127 | reading back the decimal text of a number gives the number |
| Filters.IsRelevant | fusion_gcode_formatter.py:54 | a trimmed line is kept when it is non-empty and starts with `G`, `N`, `T`, `O` or `(`, or is `%`, `M99` or `M30` (a test; see `Filters.RelevantComplete`) |
| Filters.Relevant | fusion_gcode_formatter.py:47-60 | every kept line is trimmed and relevant (starts with `G N T O (` or is `%`, `M99`, `M30`), and no more lines are kept than given |
| Filters.KeepRelevantLines | fusion_gcode_formatter.py:47-60 | the loop returns exactly the reference list `Relevant` |
| Filters.RelevantFromInput | fusion_gcode_formatter.py:49-56 | every kept line is the trimmed text of some input line |
| Filters.RelevantComplete | fusion_gcode_formatter.py:49-56 | every input line whose trimmed text is relevant is kept |
| Filters.RelevantAppend | fusion_gcode_formatter.py:49-56 | the filter works line by line: filtering a concatenation is concatenating the filtered parts |
| Filters.RelevantIdempotent | fusion_gcode_formatter.py:47-60 | filtering twice is filtering once |
| Filters.Tidy | fusion_gcode_formatter.py:62-73 | runs of empty lines collapsed: never longer than the input, empty only for empty input, and the last line is preserved |
| Filters.TidySpacing | fusion_gcode_formatter.py:62-73 | the loop with its `prev_blank` flag returns exactly `Tidy` |
| Filters.TidyKeepsNonBlank | fusion_gcode_formatter.py:66-72 | only empty lines are dropped: the non-empty lines are all kept, in order |
| Filters.NonBlank | fusion_gcode_formatter.py:66-72 | the non-empty lines of a list contain no empty line |
| Filters.NonBlankAppend | fusion_gcode_formatter.py:66-72 | taking the non-empty lines of a concatenation takes them from each part |
| Filters.TidyHasNoDoubleBlank | fusion_gcode_formatter.py:62-73 | the result never has two empty lines in a row |
| Filters.TidyKeepsTidy | fusion_gcode_formatter.py:62-73 | a list with no two consecutive empty lines is returned unchanged |
| Filters.TidyIdempotent | fusion_gcode_formatter.py:62-73 | tidying twice is tidying once |
| Filters.Blanks | fusion_gcode_formatter.py:62-73 | a run of `n` empty lines |
| Filters.TidySnoc | fusion_gcode_formatter.py:66-72 | one more line is appended unless it is empty and the previous line was empty |
| Filters.TidyAppend | fusion_gcode_formatter.py:62-73 | where no run of empty lines crosses the junction, tidying a concatenation tidies each part |
| Filters.TidyBlanks | fusion_gcode_formatter.py:66-72 | a run of one or more empty lines becomes exactly one empty line |
| Filters.TidyCollapsesRun | fusion_gcode_formatter.py:62-73 | every run of empty lines between non-empty text is collapsed to exactly one empty line, the text on either side tidied on its own |
| Filters.IsBanned | fusion_gcode_formatter.py:80-84 | the trimmed line starts with one of `G80 G54 G50 G90 G95 G18 G96 G97` (a test; see `Filters.UnbannedExactly`) |
| Filters.Unbanned | fusion_gcode_formatter.py:75-90 | no line left starts (once trimmed) with a banned code, and no more lines are left than given |
| Filters.RemoveUnwantedGcodes | fusion_gcode_formatter.py:75-90 | the loop returns exactly `Unbanned`; kept lines are not trimmed |
| Filters.UnbannedExactly | fusion_gcode_formatter.py:82-87 | a line is in the result exactly when it is an input line that is not banned |
| Filters.UnbannedAppend | fusion_gcode_formatter.py:82-87 | the filter works line by line over a concatenation |
| Filters.GeneratedSpeedLineSurvives | fusion_gcode_formatter.py:76-79 | the test looks only at the start of the line: `G99G96S200F.25` is kept and `G96S200M03` is removed |
| Gcode.IsProgramNumber | fusion_gcode_formatter.py:101 | `O` followed by one or more digits (no contract of its own; see `Gcode.ProgramNumberExamples`) |
| Gcode.IsToolLine | fusion_gcode_formatter.py:103 | `T` with the one or two characters after it all digits (no contract of its own; see `Gcode.ToolLineExamples`) |
| Gcode.IsComment | fusion_gcode_formatter.py:230 | starts with `(` and ends with `)` (no contract of its own; see `Gcode.LineTestsExclusive`) |
| Gcode.IsEndMarker | fusion_gcode_formatter.py:279 | `M99` or `M30` (no contract of its own; see `Gcode.LineTestsExclusive`) |
| Gcode.LineTestsExclusive | fusion_gcode_formatter.py:227-289 | a comment is never a tool change, marker or program number, a tool change never a marker or program number, a marker never a program number |
| Gcode.ToolLineExamples | fusion_gcode_formatter.py:103 | `T7`, `T0101`, `T07X` are tool changes; `T`, `T7X`, `TA1`, `t0101` are not |
| Gcode.ProgramNumberExamples | fusion_gcode_formatter.py:101 | `O1234` and `O0` are program numbers; `O`, `O12A`, `P1234` are not |
| Preamble.IsSkipped | fusion_gcode_formatter.py:99 | the trimmed line is empty or `%` (a test; see `Preamble.ScanStepCleaned`) |
| Preamble.ScanStep | fusion_gcode_formatter.py:97-106 | one pass of the loop body: nothing is kept while no tool change has been seen |
| Preamble.ScanLines | fusion_gcode_formatter.py:92-106 | the loop state after the lines: no more lines are kept than given, and none when no tool change was seen |
| Preamble.Stripped | fusion_gcode_formatter.py:92-109 | the program number and kept lines `strip_preamble` returns (no contract of its own; see `Preamble.KeptFromFirstTool` and `Preamble.ProgramNumberIsLast`) |
| Preamble.Content | fusion_gcode_formatter.py:99-106 | the trimmed lines that are neither empty nor `%` (no contract of its own; see `Preamble.ContentHasNoBlank`) |
| Preamble.StripPreamble | fusion_gcode_formatter.py:92-109 | the loop returns the reference program number (or `O0000`) and kept lines |
| Preamble.FirstTool | fusion_gcode_formatter.py:103-104 | the index of the first tool change is at most the number of lines |
| Preamble.FirstToolSpec | fusion_gcode_formatter.py:103-104 | no line before that index is a tool change, and the line at it is one |
| Preamble.FoundToolIffAny | fusion_gcode_formatter.py:96-104 | `found_tool` ends true exactly when some line is a tool change |
| Preamble.ScanStepCleaned | fusion_gcode_formatter.py:99-106 | one pass keeps the trimmed line exactly when a tool change has been seen by then and the line is neither empty nor `%` |
| Preamble.KeptFromFirstTool | fusion_gcode_formatter.py:92-109 | the kept lines are exactly the trimmed lines from the first tool change on, skipping empty and `%` lines; there are none without a tool change |
| Preamble.ContentHasNoBlank | fusion_gcode_formatter.py:99-100 | no kept line is empty or `%` |
| Preamble.ContentFromInput | fusion_gcode_formatter.py:97-106 | every kept line is an input line, trimmed, that is neither empty nor `%` |
| Preamble.StrippedFromInput | fusion_gcode_formatter.py:92-109 | every line `strip_preamble` returns is an input line at or after the first tool change, trimmed |
| Preamble.IsProgramLine | fusion_gcode_formatter.py:101 | line `j` is an `O<digits>` line once trimmed (a test; see `Preamble.LastProgramLineIsLast`) |
| Preamble.LastProgramLine | fusion_gcode_formatter.py:101-102 | the index of the last `O<digits>` line, or -1 |
| Preamble.LastProgramLineIsLast | fusion_gcode_formatter.py:101-102 | that line is an `O<digits>` line and no later line is one |
| Preamble.NoProgramLine | fusion_gcode_formatter.py:101-102 | the index is -1 exactly when no line is an `O<digits>` line |
| Preamble.ProgramNumberIsLast | fusion_gcode_formatter.py:101-102 | the recorded program number is the trimmed text of the last `O<digits>` line, and absent when there is none |
| Preamble.DefaultOnlyWithoutProgramLine | fusion_gcode_formatter.py:107-109 | the result is always an `O<digits>` line, and it is `O0000` when the input has none |
| Tools.ToolDigits | fusion_gcode_formatter.py:114-119 | `^T(\d+)`: when it matches, the whole run of digits after `T` (the next character is not a digit); no match exactly when the line does not start with `T` and a digit |
| Tools.NFromTool | fusion_gcode_formatter.py:117-127 | the N-number is `N` followed by digits |
| Tools.LeadingPair | fusion_gcode_formatter.py:124 | the value of the first two digits (of the only digit when there is one), below 100 |
| Tools.NFromFallback | fusion_gcode_formatter.py:119-121 | without a leading tool number the N-number is `N100` |
| Tools.NFromToolValue | fusion_gcode_formatter.py:122-127 | the N-number's digits read back as 100 times the first two digits of the tool number |
| Tools.NFromToolRange | fusion_gcode_formatter.py:117-127 | every N-number is a multiple of 100, at most 9900 |
| Tools.ToolDigitsAll | fusion_gcode_formatter.py:114-119 | for `T` followed only by digits, the match is the whole rest of the line |
| Tools.NFromDigitsOnly | fusion_gcode_formatter.py:117-127 | the N-number of `T` followed only by digits |
| Tools.NFromToolT0700 | fusion_gcode_formatter.py:13 | `T0700` gives `N700` |
| Tools.NFromToolT0300 | fusion_gcode_formatter.py:13 | `T0300` gives `N300` |
| Tools.NFromToolT0101 | fusion_gcode_formatter.py:117-127 | `T0101` gives `N100` |
| Tools.NFromToolT7 | fusion_gcode_formatter.py:124 | a single digit is used on its own: `T7` gives `N700` |
| Tools.NFromNonTool | fusion_gcode_formatter.py:119-121 | `X12`, `T` and `TA1` give `N100` |
| Tools.LineLength | fusion_gcode_formatter.py:115 | how far `.` can reach: up to the first newline |
| Tools.LastNonNewline | fusion_gcode_formatter.py:115 | the last character `.` could match, if any |
| Tools.ValueGroup | fusion_gcode_formatter.py:115 | what `\s*(.+)` captures: non-empty and without a newline; no match only when the rest is all newlines |
| Tools.AfterSeparators | fusion_gcode_formatter.py:115 | `key\s*[:=]\s*(.+)` at the start of a text (no contract of its own; see `Tools.AfterSeparatorsRest` and `Tools.AfterSeparatorsSplit`) |
| Tools.MatchAt | fusion_gcode_formatter.py:115 | the pattern tried at one position (no contract of its own; see `Tools.MatchAtLabelled` and `Tools.MatchAtSound`) |
| Tools.SearchFrom | fusion_gcode_formatter.py:139 | `search`: a match is the one at the leftmost matching position; no match means no position matches |
| Tools.CommentBody | fusion_gcode_formatter.py:138 | the comment text stripped of white space, then parentheses, then white space, is trimmed |
| Tools.ParseToolKey | fusion_gcode_formatter.py:129-144 | the key is lower case with no white space at either end |
| Tools.LeadLengthOf | fusion_gcode_formatter.py:115 | a prefix made of the set's characters, followed by one outside it, is the longest such prefix |
| Tools.CommentBodyOf | fusion_gcode_formatter.py:138 | `(body)` gives back the body when the body's ends are neither parentheses nor white space |
| Tools.ValueGroupOf | fusion_gcode_formatter.py:115 | white space followed by a value without newlines: `\s*(.+)` captures the value |
| Tools.AfterSeparatorsOf | fusion_gcode_formatter.py:115 | `key`, white space, `:` or `=`, white space and a value: the value is captured |
| Tools.MatchLabel | fusion_gcode_formatter.py:115 | a well-formed label matches at its start and captures the value |
| Tools.AfterSeparatorsRest | fusion_gcode_formatter.py:115 | `key`, white space and `:` or `=` are consumed and `\s*(.+)` captures from what follows |
| Tools.AfterSeparatorsSplit | fusion_gcode_formatter.py:115 | where `key\s*[:=]` matches, the text splits into `key` in any case, white space, `:` or `=`, and the rest that `\s*(.+)` reads |
| Tools.MatchAtLabelled | fusion_gcode_formatter.py:115 | completeness: `tool`, separators, `key`, white space and `:` or `=` match at that position, capturing what `\s*(.+)` captures from the rest |
| Tools.MatchAtSound | fusion_gcode_formatter.py:115 | soundness: a match at a position is exactly such a well-formed label there, and the value is what `\s*(.+)` captures after it |
| Tools.MatchNeedsKeyWord | fusion_gcode_formatter.py:115 | a match needs the word `key`, in any case, after the `tool` |
| Tools.ParseToolKeyCases | fusion_gcode_formatter.py:138-144 | both branches: without a match anywhere the key is the whole body lower-cased; with one, it is the trimmed, lower-cased value of the leftmost match |
| Tools.NoKeyWordKey | fusion_gcode_formatter.py:140-143 | a comment without the word `key` in any case has no label: its whole body, lower-cased, is the key |
| Tools.FaceToolExample | fusion_gcode_formatter.py:129-144 | `(FACE TOOL)` mentions a tool but has no label and yields `face tool` |
| Tools.LabelledKey | fusion_gcode_formatter.py:129-144 | any labelled comment, with any letter case, separator run and spacing, yields its value lower-cased |
| Tools.NoMatchWithoutT | fusion_gcode_formatter.py:115 | the pattern cannot match where there is no `t` or `T` |
| Tools.UnlabelledKey | fusion_gcode_formatter.py:140-143 | a comment without a `t` has no label: its whole body, lower-cased, is the key (a special case of `Tools.NoKeyWordKey`) |
| Tools.LabelledUDrill | fusion_gcode_formatter.py:129-144 | any well-formed label before `UDRILL50` yields `udrill50` |
| Tools.KeyEqualsExample | fusion_gcode_formatter.py:132 | `(TOOL_KEY=UDRILL50)` yields `udrill50` |
| Tools.KeySpacedExample | fusion_gcode_formatter.py:133 | `(TOOL_KEY = UDRILL50)` yields `udrill50` |
| Tools.KeyColonExample | fusion_gcode_formatter.py:135 | `(Tool Key: UDRILL50)` yields `udrill50` |
| Tools.KeyBareExample | fusion_gcode_formatter.py:134 | `(UDRILL50)` yields `udrill50` |
| Tools.Field | fusion_gcode_formatter.py:159-162 | `info.get(name, default)` (no contract of its own; see `Tools.KnownToolSpeedLine`) |
| Tools.Known | fusion_gcode_formatter.py:148-150 | the lower-cased key has a non-empty entry (no contract of its own; see `Tools.BuildToolBlock`) |
| Tools.BuildToolBlock | fusion_gcode_formatter.py:146-170 | 5 lines for a known tool and 4 otherwise; retract, tool line and coolant in lines 2-4; the N-number starts line 1; an unknown tool is shown as `(UNKNOWN TOOL)`; a known tool's fifth line starts `G99` |
| Tools.KnownToolDisplay | fusion_gcode_formatter.py:159-165 | a known tool's first line shows its display name, or `(UNKNOWN TOOL)` when the entry has none |
| Tools.KnownToolSpeedLine | fusion_gcode_formatter.py:160-169 | each of type, speed and feed comes from the entry when present and otherwise from its own default `G96`, `200`, `.25`, field by field |
| Tools.KnownToolFields | fusion_gcode_formatter.py:160-169 | the speed/feed line carries the entry's type, speed and feed |
| Tools.KnownToolDefaults | fusion_gcode_formatter.py:160-169 | an entry without them gets `G99G96S200F.25` |
| Tools.SpeedOnlyEntry | fusion_gcode_formatter.py:160-169 | an entry giving only a speed gets `G99G96S900F.25` for speed 900: type and feed fall back on their own |
| Tools.BlockIgnoresKeyCase | fusion_gcode_formatter.py:148-149 | keys differing only in letter case give the same block |
| Envelope.StartBlock | fusion_gcode_formatter.py:176-185 | `START`, `%`, the program number, four set-up lines and an empty line (no contract of its own; see `Envelope.InsertStandardBlocks`) |
| Envelope.EndBlock | fusion_gcode_formatter.py:186-192 | an empty line, `M05S1500`, `G28U0W0M40`, `M99`, `%` (a constant; see `Envelope.InsertStandardBlocks`) |
| Envelope.InsertStandardBlocks | fusion_gcode_formatter.py:175-193 | the body sits unchanged between the 8 start-up lines (the program number third) and the 5 shut-down lines |
| Envelope.InsertStandardBlocksInjective | fusion_gcode_formatter.py:175-193 | the program number and the body can be read back from the result |
| Assembler.Classify | fusion_gcode_formatter.py:227-290 | the loop's tests in order: comment exactly when the trimmed line is `(...)`, its key then being `parse_tool_key` of the trimmed line, lower case and trimmed; otherwise a tool change whose line is the trimmed line; otherwise `M99`/`M30`; otherwise a copied, trimmed line that is none of these |
| Assembler.Kinds | fusion_gcode_formatter.py:227 | one kind per line |
| Assembler.KindAt | fusion_gcode_formatter.py:227 | the kind of line `j` is the classification of that line |
| Assembler.ProbeKey | fusion_gcode_formatter.py:254-256 | what a lookahead or lookback probe reads from a line: the parsed key of a comment, else "" (no contract of its own; see `Assembler.KindKey`) |
| Assembler.KindKey | fusion_gcode_formatter.py:254-257 | the key a classified line offers the scans is the key the probe reads from the line itself |
| Assembler.EmitLines | fusion_gcode_formatter.py:241-295 | the lines one event appends (no contract of its own; see `Assembler.RenderSnoc`) |
| Assembler.Render | fusion_gcode_formatter.py:226-295 | the body as the loop appends it (no contract of its own; see `Assembler.RenderAppend` and `Assembler.RenderMember`) |
| Assembler.ClassifyAll | fusion_gcode_formatter.py:227 | the classifying loop returns exactly `Kinds` |
| Assembler.FirstKeyIn | fusion_gcode_formatter.py:253-259 | the key the lookahead loop stops at (no contract of its own; see `Assembler.FirstKeyInSpec`) |
| Assembler.NearestKeyIn | fusion_gcode_formatter.py:263-269 | the key the lookback loop stops at (no contract of its own; see `Assembler.NearestKeyInSpec`) |
| Assembler.FirstKeyInSpec | fusion_gcode_formatter.py:252-259 | the first key in a range belongs to a comment with no key before it in the range; "" exactly when no line in the range offers a key |
| Assembler.NearestKeyInSpec | fusion_gcode_formatter.py:262-269 | the nearest key belongs to a comment with no key after it in the range; "" exactly when none does |
| Assembler.FirstKeyAt | fusion_gcode_formatter.py:252-259 | a key with no key before it in the range is the one found |
| Assembler.NearestKeyAt | fusion_gcode_formatter.py:262-269 | a key with no key after it in the range is the one found |
| Assembler.AheadEnd | fusion_gcode_formatter.py:253 | `min(i+31, L)`: the lookahead ends after line `i`, at most 30 lines on, and stops short only at the end of the lines |
| Assembler.BackStart | fusion_gcode_formatter.py:263 | the lowest line `range(i-1, max(i-16, -1), -1)` visits: at most 15 lines back, and stops short only at line 0 |
| Assembler.ResolveKey | fusion_gcode_formatter.py:248-272 | the key for a tool change: pending, else ahead, else behind, else "" (no contract of its own; see `Assembler.KeyFromPending` to `Assembler.NoKeyFound`) |
| Assembler.KeyFromPending | fusion_gcode_formatter.py:249 | a pending key wins |
| Assembler.KeyFromAhead | fusion_gcode_formatter.py:251-259 | without one, the first comment with a key in the next 30 lines wins |
| Assembler.KeyFromBehind | fusion_gcode_formatter.py:261-269 | without either, the nearest comment with a key in the previous 15 lines wins |
| Assembler.NoKeyFound | fusion_gcode_formatter.py:248-272 | with none of the three, the key is "" |
| Assembler.ScanAhead | fusion_gcode_formatter.py:252-259 | the lookahead loop returns the first key in the next 30 lines, or "" |
| Assembler.ScanBack | fusion_gcode_formatter.py:262-269 | the lookback loop returns the nearest key in the previous 15 lines, or "" |
| Assembler.FindKey | fusion_gcode_formatter.py:248-269 | the key used is the one `ResolveKey` specifies |
| Assembler.Step | fusion_gcode_formatter.py:227-290 | one turn of the loop (no contract of its own; see `Assembler.StepShape` and `Assembler.ActiveIffOpenTool`) |
| Assembler.Run | fusion_gcode_formatter.py:226-290 | the loop state after `n` lines (no contract of its own; see `Assembler.RunShape` and `Assembler.PendingIsLatestKey`) |
| Assembler.ActiveIffOpenTool | fusion_gcode_formatter.py:241-295 | `active_tool` after `n` lines is true exactly when some tool change among them has no `M99`/`M30` after it |
| Assembler.Events | fusion_gcode_formatter.py:226-295 | the loop's events and the final close (no contract of its own; see `Assembler.ToolPathsClosedOnce`) |
| Assembler.StepShape | fusion_gcode_formatter.py:238-286 | a tool change closes the open tool path and opens one; a marker closes the open one; other lines neither open nor close |
| Assembler.ShapeMove | fusion_gcode_formatter.py:238-286 | such a move keeps headers and closes alternating |
| Assembler.StepKeepsShape | fusion_gcode_formatter.py:238-286 | one turn of the loop keeps headers and closes alternating, with every close separated by an empty line |
| Assembler.RunShape | fusion_gcode_formatter.py:226-290 | after any number of lines: one header per tool change, each closed except possibly the last |
| Assembler.ToolPathsClosedOnce | fusion_gcode_formatter.py:241-295 | headers and closes alternate, one pair per tool change; only the last close, forced by the end of input, lacks the empty line |
| Assembler.PassThrough | fusion_gcode_formatter.py:288-290 | the copied lines are exactly the other lines, all of them and in order |
| Assembler.LatestKey | fusion_gcode_formatter.py:230-275 | the latest key since the last tool change (no contract of its own; see `Assembler.LatestKeyIsLatest`) |
| Assembler.RunPasses | fusion_gcode_formatter.py:288-290 | the same after any number of lines |
| Assembler.LatestKeyIsLatest | fusion_gcode_formatter.py:230-275 | the latest key is the key of the last comment offering one since the last tool change; none when every such comment precedes a tool change |
| Assembler.PendingIsLatestKey | fusion_gcode_formatter.py:230-275 | `current_tool_key` is that latest key |
| Assembler.RunGrows | fusion_gcode_formatter.py:226-290 | the output only grows |
| Assembler.HeaderForEachTool | fusion_gcode_formatter.py:237-276 | every tool change gets its header, for the key resolved from the latest key before it |
| Assembler.LookaheadBorrowsNextKey | fusion_gcode_formatter.py:248-259 | a tool change with no key of its own takes the key of the comment meant for the next tool change |
| Assembler.KindsSound | fusion_gcode_formatter.py:227-290 | every classified line is sound: a copied line is neither a comment nor a marker, and a tool change is a tool line |
| Assembler.RunWellFormed | fusion_gcode_formatter.py:226-290 | every event copies a clean line or opens a real tool change |
| Assembler.EmitLinesClean | fusion_gcode_formatter.py:241-295 | the lines of a well-formed event are never markers or comments |
| Assembler.RenderClean | fusion_gcode_formatter.py:226-295 | nor are the lines of a list of them |
| Assembler.BodyIsClean | fusion_gcode_formatter.py:226-295 | the assembled body has no `M99`, no `M30` and no comment |
| Assembler.RenderMember | fusion_gcode_formatter.py:226-295 | every body line is a line of one of the events |
| Assembler.RunOrigins | fusion_gcode_formatter.py:226-290 | every copied line comes from a plain line and every header from a tool change among the lines |
| Assembler.EventsOrigins | fusion_gcode_formatter.py:226-295 | the same for the final list of events |
| Assembler.BodyLineOrigin | fusion_gcode_formatter.py:226-295 | every body line is a line of the header block of an input tool change, a `G30U0W0`, `M01` or empty line closing a tool path, or a trimmed input line that is neither comment, tool change nor marker |
| Assembler.RenderSnoc | fusion_gcode_formatter.py:241-295 | one more event appends its lines, e.g. `G30U0W0`, `M01` and an empty line for a separated close |
| Assembler.RenderAppend | fusion_gcode_formatter.py:226-295 | the lines of a concatenation of events are the concatenation of their lines |
| Assembler.ToolStepRender | fusion_gcode_formatter.py:238-276 | a tool change appends the close of the open path, if any, then the header block |
| Assembler.OpenTool | fusion_gcode_formatter.py:238-276 | the lines appended for a tool change are those of one step |
| Assembler.VisitLine | fusion_gcode_formatter.py:227-290 | one turn appends the lines of one step and moves `active_tool` and `current_tool_key` as the step does |
| Assembler.AssembleKinds | fusion_gcode_formatter.py:219-295 | the loop, with the final close, returns the rendered events of the lines |
| Assembler.Assemble | fusion_gcode_formatter.py:219-295 | the same, from the lines themselves |
| Formatter.Format | fusion_gcode_formatter.py:211-298 | the pipeline returns the formatted program of the reference functions |
| Formatter.Cleaned | fusion_gcode_formatter.py:211-215 | the three cleaning passes, then `strip_preamble` (no contract of its own; see `Formatter.CleanedFromInput`) |
| Formatter.Formatted | fusion_gcode_formatter.py:211-298 | the whole output (no contract of its own; see `Formatter.FormattedFrame` and the lemmas after it) |
| Formatter.TidyAfterRelevantIsIdentity | fusion_gcode_formatter.py:212-213 | `tidy_spacing` changes nothing after `keep_relevant_lines`, which never keeps an empty line |
| Formatter.FormattedFrame | fusion_gcode_formatter.py:215-298 | the output opens with the start-up block around an `O<digits>` program number and ends with the shut-down block |
| Formatter.FormattedBodyIsClean | fusion_gcode_formatter.py:279-298 | between the two blocks there is no `M99`, no `M30` and no comment |
| Formatter.ProgramNumberFromInput | fusion_gcode_formatter.py:101-215 | the program number is `O0000` or the trimmed text of an input line |
| Formatter.CleanedFromInput | fusion_gcode_formatter.py:211-215 | every line reaching the assembler is the trimmed text of an input line |
| Formatter.CleanedPassedFilters | fusion_gcode_formatter.py:211-215 | every line reaching the assembler passed `keep_relevant_lines` and `remove_unwanted_gcodes`: it is relevant and starts with no banned code |
| Formatter.FormattedBodyOrigin | fusion_gcode_formatter.py:211-298 | every output line between the two fixed blocks is a header-block line of an input tool change, a `G30U0W0`, `M01` or empty line, or a trimmed input line that is clean, not a tool change, relevant and not banned |
| Formatter.FiltersKeepSurvivors | fusion_gcode_formatter.py:47-90 | lines that are trimmed, relevant and not banned pass the three cleaning passes unchanged |
| Formatter.LineBeforeFirstToolDropped | fusion_gcode_formatter.py:97-109 | for a program number, one more line, a tool change and two further lines, `strip_preamble` keeps the program number and the last three lines, and drops the line before the tool change |
| Formatter.LoneToolWithoutKey | fusion_gcode_formatter.py:226-285 | a tool change on the first line with no comment after it takes the empty key, because the lookback is skipped at line 0; the end marker then closes its tool path |
| Formatter.KeyBeforeFirstToolDropped | fusion_gcode_formatter.py:103-106 | for `O1234`, `(TOOL_KEY=DRILL1)`, `T0101`, `G01X1.Y1.`, `M30`, the key comment is dropped with the preamble, the tool change is built with the empty key for every tool table, and the header reads `N100 (UNKNOWN TOOL)` unless the table has an entry under "" |

## Left out

- The file dialog, reading the input file, writing the output file and its timestamped name (fusion_gcode_formatter.py:26-32, 199-208, 299-301) are not modelled. The input lines are a parameter and the output lines are the result.
- `load_tool_data` (fusion_gcode_formatter.py:34-42), JSON parsing and its key normalisation are not modelled. The tool table is a parameter, a map from trimmed lower-case keys to entries mapping field names to text.
- Tools.BuildToolBlock: JSON values that are not strings (numbers, say, formatted by the f-strings) are not modelled; every field value is text.
- The diagnostic and preview prints (fusion_gcode_formatter.py:32, 41, 59, 89, 151, 207, 304-309) and the counters that feed them are left out. They do not affect the output.
- Text.Strip: only ASCII is modelled. White space is the ASCII part of what `str.isspace` and the regex `\s` accept. `isdigit` accepts only `0`-`9`, and `lower` and `(?i)` fold only `A`-`Z`. Unicode digits, letters and spaces are not modelled.
- Tools.NFromTool: the `ValueError` fallback (`num = 1`) is not modelled. Digits matched by `\d` on ASCII always parse, so it cannot be reached.
- Tools.SearchFrom: the regular expression is modelled for this one pattern only, by a hand-written matcher. No general regex engine is modelled.
- Assembler.AssembleKinds: the model classifies every line once, before the loop. The source strips and tests each line as the loop reaches it, and strips and tests the lookahead and lookback lines again. Classifying is a pure function of the line, so the output is the same.
