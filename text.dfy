/**
 * The Python string operations the invoice scripts rely on: `str.strip()`,
 * `str.replace(" ", "_")`, slicing `s[:n]` and `str.splitlines()`.
 * Strings are sequences of Unicode scalar values, as Python's are.
 */
module Text {

  /** The characters Python's `str.isspace()` accepts; `str.strip()` removes exactly these. */
  predicate IsSpace(c: char)
  {
    ('\t' <= c <= '\r') || ('\U{1C}' <= c <= '\U{1F}') || c == ' ' || c == '\U{85}' ||
    c == '\U{A0}' || c == '\U{1680}' || ('\U{2000}' <= c <= '\U{200A}') || c == '\U{2028}' ||
    c == '\U{2029}' || c == '\U{202F}' || c == '\U{205F}' || c == '\U{3000}'
  }

  /** The line boundaries of Python's `str.splitlines()` ("\r\n" counts as one boundary). */
  predicate IsLineBreak(c: char)
  {
    c == '\n' || c == '\r' || c == '\U{0B}' || c == '\U{0C}' || ('\U{1C}' <= c <= '\U{1E}') ||
    c == '\U{85}' || c == '\U{2028}' || c == '\U{2029}'
  }

  predicate AllSpace(s: string)
  {
    forall k :: 0 <= k < |s| ==> IsSpace(s[k])
  }

  predicate NoBreak(s: string)
  {
    forall k :: 0 <= k < |s| ==> !IsLineBreak(s[k])
  }

  /** Neither end of `s` is whitespace: `s.strip() == s`. */
  predicate IsStripped(s: string)
  {
    s == [] || (!IsSpace(s[0]) && !IsSpace(s[|s| - 1]))
  }

  /** Python's `s.lstrip()`: `s` without its leading whitespace. */
  function LStrip(s: string): (r: string)
    ensures |r| <= |s|
    ensures r == [] || !IsSpace(r[0])
  {
    if s == [] || !IsSpace(s[0]) then s else LStrip(s[1..])
  }

  /** Python's `s.rstrip()`: `s` without its trailing whitespace. */
  function RStrip(s: string): (r: string)
    ensures |r| <= |s| && (r != [] ==> r[0] == s[0])
    ensures r == [] || !IsSpace(r[|r| - 1])
  {
    if s == [] || !IsSpace(s[|s| - 1]) then s else RStrip(s[..|s| - 1])
  }

  /** Python's `s.strip()`: `s` without the whitespace at either end. */
  function Strip(s: string): (r: string)
    ensures IsStripped(r)
  {
    RStrip(LStrip(s))
  }

  /** Where the stripped part of `s` begins. */
  function StripStart(s: string): nat
  {
    |s| - |LStrip(s)|
  }

  /** `lstrip` keeps a suffix of `s` and removes only whitespace. */
  lemma {:induction false} LStripSuffix(s: string)
    ensures LStrip(s) == s[|s| - |LStrip(s)|..] && AllSpace(s[..|s| - |LStrip(s)|])
  {
    if s != [] && IsSpace(s[0]) {
      LStripSuffix(s[1..]);
      var n := |s| - |LStrip(s)|;
      forall k | 0 <= k < n ensures IsSpace(s[k]) {
        if k > 0 { assert s[k] == s[1..][..n - 1][k - 1]; }
      }
    }
  }

  /** `rstrip` keeps a prefix of `s` and removes only whitespace. */
  lemma {:induction false} RStripPrefix(s: string)
    ensures RStrip(s) == s[..|RStrip(s)|] && AllSpace(s[|RStrip(s)|..])
  {
    if s != [] && IsSpace(s[|s| - 1]) {
      var t := s[..|s| - 1];
      RStripPrefix(t);
      forall k | |RStrip(s)| <= k < |s| ensures IsSpace(s[k]) {
        if k < |s| - 1 { assert s[k] == t[|RStrip(t)|..][k - |RStrip(t)|]; }
      }
    }
  }

  /**
   * What stripping keeps and removes: the result is the piece of `s` that
   * starts at `StripStart(s)`, everything cut off at either end is whitespace,
   * and the result is empty exactly when `s` is all whitespace.
   */
  lemma StripSpec(s: string)
    ensures var r, i := Strip(s), StripStart(s);
      i + |r| <= |s| && r == s[i..i + |r|] && AllSpace(s[..i]) && AllSpace(s[i + |r|..])
    ensures Strip(s) == [] <==> AllSpace(s)
  {
    var l := LStrip(s);
    var r, i := Strip(s), StripStart(s);
    LStripSuffix(s);
    RStripPrefix(l);
    assert l == s[i..];
    assert r == s[i..i + |r|];
    forall k | i + |r| <= k < |s| ensures IsSpace(s[k]) {
      assert s[k] == l[|r|..][k - i - |r|];
    }
    if r == [] {
      forall k | 0 <= k < i ensures IsSpace(s[k]) {
        assert s[k] == s[..i][k];
      }
    }
  }

  /** A string that is already stripped is left unchanged. */
  lemma StripStripped(s: string)
    requires IsStripped(s)
    ensures Strip(s) == s
  {
    assert LStrip(s) == s;
  }

  /** Stripping twice is stripping once. */
  lemma StripIdempotent(s: string)
    ensures Strip(Strip(s)) == Strip(s)
  {
    StripStripped(Strip(s));
  }

  /** Stripping never introduces a line break. */
  lemma StripNoBreak(s: string)
    requires NoBreak(s)
    ensures NoBreak(Strip(s))
  {
    var r, i := Strip(s), StripStart(s);
    StripSpec(s);
    forall k | 0 <= k < |r| ensures !IsLineBreak(r[k]) {
      assert r[k] == s[i + k];
    }
  }

  /** Python's `s.replace(" ", "_")`: every space becomes an underscore, nothing else changes. */
  function ReplaceSpaces(s: string): (r: string)
    ensures |r| == |s|
    ensures forall k :: 0 <= k < |s| ==> r[k] == (if s[k] == ' ' then '_' else s[k])
    ensures ' ' !in r
  {
    if s == [] then [] else [if s[0] == ' ' then '_' else s[0]] + ReplaceSpaces(s[1..])
  }

  /** Python's `s[:n]`: the longest prefix of `s` with at most `n` characters. */
  function Take(s: string, n: nat): (r: string)
    ensures r <= s
    ensures |r| == if |s| < n then |s| else n
  {
    if |s| <= n then s else s[..n]
  }

  /** Index of the first line boundary in `s`, or `|s|` when there is none. */
  function BreakIndex(s: string): (i: nat)
    ensures i <= |s|
    ensures forall k :: 0 <= k < i ==> !IsLineBreak(s[k])
    ensures i < |s| ==> IsLineBreak(s[i])
  {
    if s == [] || IsLineBreak(s[0]) then 0 else 1 + BreakIndex(s[1..])
  }

  /**
   * Python's `s.splitlines()`: the lines of `s` without their boundaries; a
   * boundary at the very end does not start another line, so `""` has no lines.
   */
  function SplitLines(s: string): (lines: seq<string>)
    ensures forall k :: 0 <= k < |lines| ==> NoBreak(lines[k])
    decreases |s|
  {
    if s == [] then []
    else
      var i := BreakIndex(s);
      if i == |s| then [s]
      else
        [s[..i]] + SplitLines(s[i + BreakWidth(s, i)..])
  }

  /** How many characters the boundary at `i` takes: "\r\n" takes two. */
  function BreakWidth(s: string, i: nat): (w: nat)
    requires i < |s|
    ensures 1 <= w <= |s| - i
  {
    if s[i] == '\r' && i + 1 < |s| && s[i + 1] == '\n' then 2 else 1
  }

  /** The first boundary of `s + u` is the first of `s`, or else the first of `u`. */
  lemma {:induction false} BreakIndexAppend(s: string, u: string)
    ensures BreakIndex(s + u) == if BreakIndex(s) < |s| then BreakIndex(s) else |s| + BreakIndex(u)
  {
    if s != [] {
      assert (s + u)[0] == s[0];
      assert (s + u)[1..] == s[1..] + u;
      BreakIndexAppend(s[1..], u);
    } else {
      assert s + u == u;
    }
  }

  /** `"\n".join(lines)`: the text a user types with one entry per line. */
  function JoinLines(lines: seq<string>): string
  {
    if lines == [] then []
    else if |lines| == 1 then lines[0]
    else lines[0] + "\n" + JoinLines(lines[1..])
  }

  /** Splitting joined lines gives the lines back, as long as none holds a boundary and the last is not empty. */
  lemma {:induction false} SplitJoin(lines: seq<string>)
    requires forall k :: 0 <= k < |lines| ==> NoBreak(lines[k])
    requires lines == [] || lines[|lines| - 1] != []
    ensures SplitLines(JoinLines(lines)) == lines
  {
    if |lines| == 1 {
      var s := lines[0];
      assert BreakIndex(s) == |s|;
    } else if |lines| > 1 {
      var s := JoinLines(lines);
      var head := lines[0];
      assert s == head + "\n" + JoinLines(lines[1..]);
      assert s[|head|] == '\n';
      var i := BreakIndex(s);
      assert forall k :: 0 <= k < |head| ==> s[k] == head[k];
      assert i == |head|;
      assert s[..i] == head;
      assert s[i + 1..] == JoinLines(lines[1..]);
      SplitJoin(lines[1..]);
    }
  }

  /**
   * What the form keeps of a list of lines: each line stripped, blank ones
   * dropped, the order kept. (`[l.strip() for l in lines if l.strip()]`)
   */
  function CleanLines(lines: seq<string>): (r: seq<string>)
    ensures |r| <= |lines|
    ensures forall k :: 0 <= k < |r| ==> r[k] != [] && IsStripped(r[k])
    ensures (forall k :: 0 <= k < |lines| ==> NoBreak(lines[k])) ==> forall k :: 0 <= k < |r| ==> NoBreak(r[k])
  {
    if lines == [] then []
    else
      var line := Strip(lines[0]);
      if line == [] then CleanLines(lines[1..])
      else
        StripNoBreakIf(lines[0]);
        [line] + CleanLines(lines[1..])
  }

  lemma StripNoBreakIf(s: string)
    ensures NoBreak(s) ==> NoBreak(Strip(s))
  {
    if NoBreak(s) { StripNoBreak(s); }
  }

  /** Lines that are already entries (non-empty, stripped) are all kept, unchanged and in order. */
  lemma {:induction false} CleanLinesOfEntries(lines: seq<string>)
    requires forall k :: 0 <= k < |lines| ==> lines[k] != [] && IsStripped(lines[k])
    ensures CleanLines(lines) == lines
  {
    if lines != [] {
      StripStripped(lines[0]);
      CleanLinesOfEntries(lines[1..]);
    }
  }

  /** Cleaning distributes over concatenation: each line is kept or dropped on its own. */
  lemma {:induction false} CleanLinesAppend(a: seq<string>, b: seq<string>)
    ensures CleanLines(a + b) == CleanLines(a) + CleanLines(b)
  {
    if a == [] {
      assert a + b == b;
    } else {
      assert (a + b)[0] == a[0];
      assert (a + b)[1..] == a[1..] + b;
      CleanLinesAppend(a[1..], b);
    }
  }

  /** A line followed by the rest: the line is kept stripped when it is not blank. */
  lemma {:induction false} CleanLinesCons(line: string, rest: seq<string>)
    ensures CleanLines([line] + rest) == (if Strip(line) == [] then [] else [Strip(line)]) + CleanLines(rest)
  {
    assert ([line] + rest)[1..] == rest;
  }

  /** Whitespace in front of a text is not kept by stripping. */
  lemma {:induction false} StripCons(c: char, s: string)
    requires IsSpace(c)
    ensures Strip([c] + s) == Strip(s)
  {
    assert ([c] + s)[1..] == s;
  }

  lemma {:induction false} LStripSnoc(s: string, c: char)
    requires IsSpace(c)
    ensures LStrip(s + [c]) == if LStrip(s) == [] then [] else LStrip(s) + [c]
  {
    if s == [] {
      assert LStrip([c]) == LStrip([c][1..]);
    } else if IsSpace(s[0]) {
      assert (s + [c])[1..] == s[1..] + [c];
      LStripSnoc(s[1..], c);
    }
  }

  /** Whitespace after a text is not kept by stripping. */
  lemma {:induction false} StripSnoc(s: string, c: char)
    requires IsSpace(c)
    ensures Strip(s + [c]) == Strip(s)
  {
    LStripSnoc(s, c);
    var l := LStrip(s);
    if l != [] {
      assert (l + [c])[..|l|] == l;
    }
  }

  /** A whitespace character in front of a text changes none of its cleaned lines. */
  lemma {:induction false} CleanSplitDropFirst(c: char, s: string)
    requires IsSpace(c)
    ensures CleanLines(SplitLines([c] + s)) == CleanLines(SplitLines(s))
  {
    var t := [c] + s;
    if IsLineBreak(c) {
      var width := BreakWidth(t, 0);
      SplitLinesAt(t, 0, width);
      CleanLinesCons(t[..0], SplitLines(t[width..]));
      if width == 2 {
        assert t[2..] == s[1..];
        SplitLinesAt(s, 0, 1);
        CleanLinesCons(s[..0], SplitLines(s[1..]));
      } else {
        assert t[1..] == s;
      }
    } else {
      BreakIndexAppend([c], s);
      assert BreakIndex([c]) == 1;
      StripCons(c, s);
      if BreakIndex(s) == |s| {
        SplitLinesWhole(t);
        CleanLinesCons(t, []);
        if s != [] {
          SplitLinesWhole(s);
          CleanLinesCons(s, []);
        }
      } else {
        CleanSplitDropFirstAt(c, s);
      }
    }
  }

  /** `CleanSplitDropFirst` when `c` is not a boundary and `s` has one. */
  lemma {:induction false} CleanSplitDropFirstAt(c: char, s: string)
    requires IsSpace(c) && !IsLineBreak(c) && BreakIndex(s) < |s|
    ensures CleanLines(SplitLines([c] + s)) == CleanLines(SplitLines(s))
  {
    var i := BreakIndex(s);
    var w := BreakWidth(s, i);
    var rest := s[i + w..];
    SplitLinesCons(c, s, i, w);
    SplitLinesAt(s, i, w);
    StripCons(c, s[..i]);
    CleanLinesCons([c] + s[..i], SplitLines(rest));
    CleanLinesCons(s[..i], SplitLines(rest));
  }

  /** A character that is not a boundary joins the first line of `s`. */
  lemma {:induction false} SplitLinesCons(c: char, s: string, i: nat, w: nat)
    requires !IsLineBreak(c) && i == BreakIndex(s) < |s| && w == BreakWidth(s, i)
    ensures SplitLines([c] + s) == [[c] + s[..i]] + SplitLines(s[i + w..])
  {
    BreakIndexAppend([c], s);
    BreakWidthCons(c, s, i);
    ConsSlices(c, s, i, i + w);
    SplitLinesAt([c] + s, 1 + i, w);
  }

  /** Unfolds `SplitLines` at the first boundary `i`, which takes `w` characters. */
  lemma SplitLinesAt(s: string, i: nat, w: nat)
    requires i == BreakIndex(s) < |s| && w == BreakWidth(s, i)
    ensures SplitLines(s) == [s[..i]] + SplitLines(s[i + w..])
  {
  }

  lemma BreakWidthCons(c: char, s: string, i: nat)
    requires i < |s|
    ensures BreakWidth([c] + s, 1 + i) == BreakWidth(s, i)
  {
    var t := [c] + s;
    assert t[1 + i] == s[i] && (i + 1 < |s| ==> t[i + 2] == s[i + 1]);
  }

  lemma ConsSlices(c: char, s: string, i: nat, j: nat)
    requires i <= j <= |s|
    ensures ([c] + s)[..1 + i] == [c] + s[..i] && ([c] + s)[1 + j..] == s[j..]
  {
  }

  lemma SnocSlices(s: string, c: char, i: nat, j: nat)
    requires i <= j <= |s|
    ensures (s + [c])[..i] == s[..i] && (s + [c])[j..] == s[j..] + [c]
  {
  }

  /** A whitespace character after a text changes none of its cleaned lines. */
  lemma {:induction false} CleanSplitDropLast(s: string, c: char)
    requires IsSpace(c)
    ensures CleanLines(SplitLines(s + [c])) == CleanLines(SplitLines(s))
    decreases |s|
  {
    var t := s + [c];
    BreakIndexAppend(s, [c]);
    assert BreakIndex([c]) == if IsLineBreak(c) then 0 else 1;
    if BreakIndex(s) < |s| {
      CleanSplitDropLastAt(s, c, BreakIndex(s), BreakWidth(s, BreakIndex(s)));
    } else {
      StripSnoc(s, c);
      if IsLineBreak(c) {
        SnocSlices(s, c, |s|, |s|);
        SplitLinesAt(t, |s|, 1);
        assert t[|s| + 1..] == [];
        if s == [] {
          StripCons(c, []);
        } else {
          SplitLinesWhole(s);
        }
      } else {
        SplitLinesWhole(t);
        CleanLinesCons(t, []);
        if s != [] {
          SplitLinesWhole(s);
          CleanLinesCons(s, []);
        }
      }
    }
  }

  /** `CleanSplitDropLast` when `s` has a line boundary at `i`, `w` characters wide. */
  lemma {:induction false} CleanSplitDropLastAt(s: string, c: char, i: nat, w: nat)
    requires IsSpace(c) && i == BreakIndex(s) < |s| && w == BreakWidth(s, i)
    ensures CleanLines(SplitLines(s + [c])) == CleanLines(SplitLines(s))
    decreases |s|, 0
  {
    var t := s + [c];
    BreakIndexAppend(s, [c]);
    BreakWidthSnoc(s, c, i);
    SnocSlices(s, c, i, i + w);
    SplitLinesAt(s, i, w);
    var rest := s[i + w..];
    if BreakWidth(t, i) != w {
      SplitLinesAt(t, i, 2);
      assert t[i + 2..] == [] && rest == [];
    } else {
      SplitLinesAt(t, i, w);
      CleanSplitDropLast(rest, c);
      CleanLinesCons(s[..i], SplitLines(rest + [c]));
      CleanLinesCons(s[..i], SplitLines(rest));
    }
  }

  /** A line with no boundary splits into itself. */
  lemma SplitLinesWhole(s: string)
    requires s != [] && BreakIndex(s) == |s|
    ensures SplitLines(s) == [s]
  {
  }

  /** A character put after `s` changes the width of the boundary at `i` only when it completes a "\r\n". */
  lemma BreakWidthSnoc(s: string, c: char, i: nat)
    requires i < |s|
    ensures BreakWidth(s + [c], i) == BreakWidth(s, i) || (i + 1 == |s| && BreakWidth(s + [c], i) == 2)
  {
    var t := s + [c];
    assert t[i] == s[i] && (i + 1 < |s| ==> t[i + 1] == s[i + 1]);
  }

  lemma {:induction false} CleanSplitLStrip(s: string)
    ensures CleanLines(SplitLines(LStrip(s))) == CleanLines(SplitLines(s))
  {
    if s != [] && IsSpace(s[0]) {
      assert [s[0]] + s[1..] == s;
      CleanSplitLStrip(s[1..]);
      CleanSplitDropFirst(s[0], s[1..]);
    }
  }

  lemma {:induction false} CleanSplitRStrip(s: string)
    ensures CleanLines(SplitLines(RStrip(s))) == CleanLines(SplitLines(s))
  {
    if s != [] && IsSpace(s[|s| - 1]) {
      assert s[..|s| - 1] + [s[|s| - 1]] == s;
      CleanSplitRStrip(s[..|s| - 1]);
      CleanSplitDropLast(s[..|s| - 1], s[|s| - 1]);
    }
  }

  /** Stripping a text before splitting it changes none of its cleaned lines. */
  lemma {:induction false} CleanSplitStrip(s: string)
    ensures CleanLines(SplitLines(Strip(s))) == CleanLines(SplitLines(s))
  {
    CleanSplitLStrip(s);
    CleanSplitRStrip(LStrip(s));
  }

  /** Joining with one more line puts a newline and that line at the end. */
  lemma {:induction false} JoinLinesSnoc(lines: seq<string>, line: string)
    requires lines != []
    ensures JoinLines(lines + [line]) == JoinLines(lines) + "\n" + line
  {
    var all := lines + [line];
    assert all[0] == lines[0];
    if |lines| > 1 {
      assert all[1..] == lines[1..] + [line];
      JoinLinesSnoc(lines[1..], line);
    } else {
      assert all[1..] == [line];
    }
  }

  /**
   * Whatever lines are typed, one per line, the cleaned lines of the text
   * are the cleaned typed lines: a blank last line leaves no trace.
   */
  lemma {:induction false} CleanSplitJoin(lines: seq<string>)
    requires forall k :: 0 <= k < |lines| ==> NoBreak(lines[k])
    ensures CleanLines(SplitLines(JoinLines(lines))) == CleanLines(lines)
  {
    if lines != [] {
      var n := |lines|;
      if lines[n - 1] != [] {
        SplitJoin(lines);
      } else if n == 1 {
        assert Strip(lines[0]) == [];
      } else {
        var init := lines[..n - 1];
        assert lines == init + [[]];
        JoinLinesSnoc(init, []);
        assert JoinLines(lines) == JoinLines(init) + ['\n'];
        CleanSplitDropLast(JoinLines(init), '\n');
        CleanSplitJoin(init);
        CleanLinesAppend(init, [[]]);
        assert CleanLines([[]]) == [];
      }
    }
  }
}
