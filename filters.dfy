/**
 * The three cleaning passes run first on the raw G-code lines
 * (fusion_gcode_formatter.py:47-90). Each pass is a loop appending to a
 * list; each is modelled as a method with that loop, proved equal to a
 * reference function that builds the same list one input line at a time.
 */
module Filters {
  import opened Text

  /** First characters that make a line worth keeping. */
  const LeadingTokens: set<char> := {'G', 'N', 'T', 'O', '('}

  /** Whole lines kept although they start with none of the leading tokens. */
  const BareMarkers: set<string> := {"%", "M99", "M30"}

  /** Set-up and spindle-mode codes whose lines are removed. */
  const BannedPrefixes: seq<string> := ["G80", "G54", "G50", "G90", "G95", "G18", "G96", "G97"]

  /** A trimmed line that `keep_relevant_lines` keeps. */
  predicate IsRelevant(s: string) {
    s != "" && (s[0] in LeadingTokens || s in BareMarkers)
  }

  /** A line whose trimmed text starts with one of the banned codes. */
  predicate IsBanned(s: string) {
    exists p :: p in BannedPrefixes && p <= Strip(s)
  }

  // ---------------------------------------------------------------- keep_relevant_lines

  /** The trimmed relevant lines of `lines`, in order. */
  function Relevant(lines: seq<string>): (r: seq<string>)
    ensures |r| <= |lines|
    ensures forall k :: 0 <= k < |r| ==> IsRelevant(r[k]) && IsTrimmed(r[k])
  {
    if lines == [] then []
    else
      var s := Strip(Last(lines));
      Relevant(Init(lines)) + (if IsRelevant(s) then [s] else [])
  }

  method KeepRelevantLines(lines: seq<string>) returns (kept: seq<string>)
    ensures kept == Relevant(lines)
  {
    kept := [];
    for i := 0 to |lines|
      invariant kept == Relevant(lines[..i])
    {
      assert Init(lines[..i + 1]) == lines[..i];
      var s := Strip(lines[i]);
      if s == "" {
        continue;
      }
      if s[0] in LeadingTokens || s in BareMarkers {
        kept := kept + [s];
      }
    }
    assert lines[..|lines|] == lines;
  }

  /** Keeping relevant lines of a concatenation keeps them from each part, in order. */
  lemma {:induction false} RelevantAppend(a: seq<string>, b: seq<string>)
    ensures Relevant(a + b) == Relevant(a) + Relevant(b)
  {
    if b != [] {
      assert Init(a + b) == a + Init(b);
      RelevantAppend(a, Init(b));
    } else {
      assert a + b == a;
    }
  }

  /** Every kept line is the trimmed text of some input line. */
  lemma {:induction false} RelevantFromInput(lines: seq<string>, k: nat)
    requires k < |Relevant(lines)|
    ensures exists j :: 0 <= j < |lines| && Relevant(lines)[k] == Strip(lines[j])
  {
    var p := Init(lines);
    if k < |Relevant(p)| {
      RelevantFromInput(p, k);
      var j :| 0 <= j < |p| && Relevant(p)[k] == Strip(p[j]);
      assert lines[j] == p[j];
    } else {
      assert Relevant(lines)[k] == Strip(lines[|lines| - 1]);
    }
  }

  /** Every input line whose trimmed text is relevant survives, trimmed. */
  lemma {:induction false} RelevantComplete(lines: seq<string>, j: nat)
    requires j < |lines| && IsRelevant(Strip(lines[j]))
    ensures Strip(lines[j]) in Relevant(lines)
  {
    var p := Init(lines);
    if j < |p| {
      assert lines[j] == p[j];
      RelevantComplete(p, j);
    }
  }

  /** Running the pass on its own output changes nothing. */
  lemma {:induction false} RelevantIdempotent(lines: seq<string>)
    ensures Relevant(Relevant(lines)) == Relevant(lines)
  {
    if lines != [] {
      var p := Init(lines);
      var s := Strip(Last(lines));
      RelevantIdempotent(p);
      StripIdempotent(Last(lines));
      RelevantAppend(Relevant(p), if IsRelevant(s) then [s] else []);
      if IsRelevant(s) {
        assert Init([s]) == [];
      }
    }
  }

  // ---------------------------------------------------------------- tidy_spacing

  /** No empty line directly follows another empty line. */
  predicate NoDoubleBlank(lines: seq<string>) {
    forall k :: 0 <= k < |lines| - 1 ==> !(lines[k] == "" && lines[k + 1] == "")
  }

  /** The non-empty lines of `lines`, in order. */
  function NonBlank(lines: seq<string>): (r: seq<string>)
    ensures forall k :: 0 <= k < |r| ==> r[k] != ""
  {
    if lines == [] then []
    else NonBlank(Init(lines)) + (if Last(lines) == "" then [] else [Last(lines)])
  }

  /**
   * `lines` with every run of empty lines collapsed to its first one: an
   * empty line is dropped exactly when the input line before it was empty.
   */
  function Tidy(lines: seq<string>): (r: seq<string>)
    ensures |r| <= |lines|
    ensures r == [] <==> lines == []
    ensures r != [] ==> Last(r) == Last(lines)
  {
    if lines == [] then []
    else
      var prev := Init(lines);
      var prevBlank := prev != [] && Last(prev) == "";
      Tidy(prev) + (if Last(lines) == "" && prevBlank then [] else [Last(lines)])
  }

  method TidySpacing(lines: seq<string>) returns (tidy: seq<string>)
    ensures tidy == Tidy(lines)
  {
    tidy := [];
    var prevBlank := false;
    for i := 0 to |lines|
      invariant tidy == Tidy(lines[..i])
      invariant prevBlank <==> i > 0 && lines[i - 1] == ""
    {
      assert Init(lines[..i + 1]) == lines[..i];
      if lines[i] == "" {
        if !prevBlank {
          tidy := tidy + [""];
        }
        prevBlank := true;
      } else {
        tidy := tidy + [lines[i]];
        prevBlank := false;
      }
    }
    assert lines[..|lines|] == lines;
  }

  /** Collapsing blank runs keeps exactly the non-empty lines, in order. */
  lemma {:induction false} TidyKeepsNonBlank(lines: seq<string>)
    ensures NonBlank(Tidy(lines)) == NonBlank(lines)
  {
    if lines != [] {
      var prev := Init(lines);
      var prevBlank := prev != [] && Last(prev) == "";
      var tail := if Last(lines) == "" && prevBlank then [] else [Last(lines)];
      TidyKeepsNonBlank(prev);
      NonBlankAppend(Tidy(prev), tail);
      if tail != [] {
        assert Init(tail) == [];
      }
    }
  }

  lemma {:induction false} NonBlankAppend(a: seq<string>, b: seq<string>)
    ensures NonBlank(a + b) == NonBlank(a) + NonBlank(b)
  {
    if b != [] {
      assert Init(a + b) == a + Init(b);
      NonBlankAppend(a, Init(b));
    } else {
      assert a + b == a;
    }
  }

  /** The output never has two empty lines in a row. */
  lemma {:induction false} TidyHasNoDoubleBlank(lines: seq<string>)
    ensures NoDoubleBlank(Tidy(lines))
  {
    if lines != [] {
      var prev := Init(lines);
      TidyHasNoDoubleBlank(prev);
      var r := Tidy(lines);
      var t := Tidy(prev);
      forall k | 0 <= k < |r| - 1
        ensures !(r[k] == "" && r[k + 1] == "")
      {
        if k + 1 < |t| {
          assert r[k] == t[k] && r[k + 1] == t[k + 1];
        } else {
          assert r[k] == Last(t) == Last(prev);
        }
      }
    }
  }

  /** A list with no two consecutive empty lines is left unchanged. */
  lemma {:induction false} TidyKeepsTidy(lines: seq<string>)
    requires NoDoubleBlank(lines)
    ensures Tidy(lines) == lines
  {
    if lines != [] {
      var prev := Init(lines);
      assert NoDoubleBlank(prev) by {
        forall k | 0 <= k < |prev| - 1 ensures !(prev[k] == "" && prev[k + 1] == "") {
          assert prev[k] == lines[k] && prev[k + 1] == lines[k + 1];
        }
      }
      TidyKeepsTidy(prev);
      if |prev| > 0 {
        assert lines[|prev| - 1] == Last(prev) && lines[|prev|] == Last(lines);
      }
      assert Tidy(lines) == prev + [Last(lines)];
    }
  }

  /** `n` empty lines. */
  function Blanks(n: nat): (r: seq<string>)
    ensures |r| == n && forall k :: 0 <= k < n ==> r[k] == ""
  {
    if n == 0 then [] else Blanks(n - 1) + [""]
  }

  /** Two lists whose junction is not an empty line followed by an empty line. */
  predicate Joinable(a: seq<string>, b: seq<string>) {
    a == [] || b == [] || Last(a) != "" || b[0] != ""
  }

  /** One more line: it is kept unless it and the line before it are both empty. */
  lemma TidySnoc(xs: seq<string>, y: string)
    ensures Tidy(xs + [y]) == Tidy(xs) + (if y == "" && xs != [] && Last(xs) == "" then [] else [y])
  {
    assert Init(xs + [y]) == xs;
  }

  lemma AppendAssoc(x: seq<string>, y: seq<string>, z: seq<string>)
    ensures (x + y) + z == x + (y + z)
  {
  }

  /** Where no run of empty lines crosses the junction, each part is tidied on its own. */
  lemma {:induction false} TidyAppend(a: seq<string>, b: seq<string>)
    requires Joinable(a, b)
    ensures Tidy(a + b) == Tidy(a) + Tidy(b)
  {
    if b == [] {
      assert a + b == a;
      assert Tidy(a) + Tidy(b) == Tidy(a) + [];
    } else {
      var b', y := Init(b), Last(b);
      assert b == b' + [y];
      assert a + b == (a + b') + [y];
      TidySnoc(a + b', y);
      TidySnoc(b', y);
      var whole := if y == "" && a + b' != [] && Last(a + b') == "" then [] else [y];
      var part := if y == "" && b' != [] && Last(b') == "" then [] else [y];
      if b' == [] {
        assert a + b' == a;
        assert whole == part;
        assert Tidy(b) == [] + part;
      } else {
        TidyAppend(a, b');
        assert Last(a + b') == Last(b');
        assert whole == part;
        assert Tidy(a + b) == (Tidy(a) + Tidy(b')) + part;
        assert Tidy(b) == Tidy(b') + part;
        AppendAssoc(Tidy(a), Tidy(b'), part);
      }
    }
  }

  /** A run of empty lines on its own leaves one empty line. */
  lemma {:induction false} TidyBlanks(n: nat)
    ensures Tidy(Blanks(n)) == if n == 0 then [] else [""]
  {
    if n > 0 {
      TidyBlanks(n - 1);
      assert Init(Blanks(n)) == Blanks(n - 1);
    }
  }

  /**
   * Every run of empty lines, between non-empty lines or the ends of the
   * list, leaves exactly one empty line, and the parts around it are tidied
   * on their own.
   */
  lemma TidyCollapsesRun(a: seq<string>, n: nat, b: seq<string>)
    requires a == [] || Last(a) != ""
    requires b == [] || b[0] != ""
    ensures Tidy(a + Blanks(n) + b) == Tidy(a) + (if n == 0 then [] else [""]) + Tidy(b)
  {
    TidyAppend(a, Blanks(n));
    TidyBlanks(n);
    TidyAppend(a + Blanks(n), b);
  }

  /** Collapsing blank runs twice is collapsing them once. */
  lemma TidyIdempotent(lines: seq<string>)
    ensures Tidy(Tidy(lines)) == Tidy(lines)
  {
    TidyHasNoDoubleBlank(lines);
    TidyKeepsTidy(Tidy(lines));
  }

  // ---------------------------------------------------------------- remove_unwanted_gcodes

  /** The lines of `lines` that are not banned, untrimmed and in order. */
  function Unbanned(lines: seq<string>): (r: seq<string>)
    ensures |r| <= |lines|
    ensures forall k :: 0 <= k < |r| ==> !IsBanned(r[k])
  {
    if lines == [] then []
    else Unbanned(Init(lines)) + (if IsBanned(Last(lines)) then [] else [Last(lines)])
  }

  method RemoveUnwantedGcodes(lines: seq<string>) returns (filtered: seq<string>)
    ensures filtered == Unbanned(lines)
  {
    filtered := [];
    for i := 0 to |lines|
      invariant filtered == Unbanned(lines[..i])
    {
      assert Init(lines[..i + 1]) == lines[..i];
      var s := Strip(lines[i]);
      if exists p :: p in BannedPrefixes && p <= s {
        continue;
      }
      filtered := filtered + [lines[i]];
    }
    assert lines[..|lines|] == lines;
  }

  /** A line is kept exactly when it is an input line that is not banned. */
  lemma {:induction false} UnbannedExactly(lines: seq<string>, x: string)
    ensures x in Unbanned(lines) <==> x in lines && !IsBanned(x)
  {
    if lines != [] {
      UnbannedExactly(Init(lines), x);
      assert lines == Init(lines) + [Last(lines)];
    }
  }

  /** Removing banned lines from a concatenation removes them from each part, in order. */
  lemma {:induction false} UnbannedAppend(a: seq<string>, b: seq<string>)
    ensures Unbanned(a + b) == Unbanned(a) + Unbanned(b)
  {
    if b != [] {
      assert Init(a + b) == a + Init(b);
      UnbannedAppend(a, Init(b));
    } else {
      assert a + b == a;
    }
  }

  /**
   * The test is on the start of the line only: the speed/feed line the
   * formatter generates, which contains G96 after G99, is not banned.
   */
  lemma GeneratedSpeedLineSurvives()
    ensures !IsBanned("G99G96S200F.25")
    ensures IsBanned("G96S200M03")
  {
    var s := "G99G96S200F.25";
    TrimSetKeeps(s, Whitespace);
    TrimSetKeeps("G96S200M03", Whitespace);
    assert Strip("G96S200M03") == "G96S200M03";
    assert BannedPrefixes[6] in BannedPrefixes && BannedPrefixes[6] <= Strip("G96S200M03");
    forall p | p in BannedPrefixes
      ensures !(p <= s)
    {
      assert p[..2] == "G9" ==> p[2] != '9';
    }
  }
}
