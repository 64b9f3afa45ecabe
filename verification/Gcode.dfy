/** From a G-code file to the lines that are streamed (src/jobs/gcode_pipeline.py). */
module Gcode {
  import opened Basics
  import opened Text

  /** The characters `str.splitlines` breaks at. */
  predicate IsBreak(c: char) {
    || '\n' <= c <= '\r' || '\U{1c}' <= c <= '\U{1e}' || c == '\U{85}' || c == '\U{2028}' || c == '\U{2029}'
  }

  predicate OneLine(s: string) { forall k :: 0 <= k < |s| ==> !IsBreak(s[k]) }

  function FirstBreak(s: string): (i: nat)
    ensures i <= |s| && (i < |s| ==> IsBreak(s[i]))
    ensures forall k :: 0 <= k < i ==> !IsBreak(s[k])
  {
    if s == "" || IsBreak(s[0]) then 0
    else
      var i := FirstBreak(s[1..]);
      assert forall k :: 1 <= k < i + 1 ==> s[k] == s[1..][k - 1];
      i + 1
  }

  /** What follows a break at i; a carriage return and a newline count as one. */
  function AfterBreak(s: string, i: nat): string
    requires i < |s|
  {
    if s[i] == '\r' && i + 1 < |s| && s[i + 1] == '\n' then s[i + 2..] else s[i + 1..]
  }

  function SplitLines(s: string): seq<string>
    decreases |s|
  {
    if s == "" then []
    else
      var i := FirstBreak(s);
      if i == |s| then [s] else [s[..i]] + SplitLines(AfterBreak(s, i))
  }

  /** Up to the first semicolon. */
  function StripComment(line: string): (r: string)
    ensures r <= line && ';' !in r
    ensures r == line || line[|r|] == ';'
  {
    if line == "" || line[0] == ';' then "" else [line[0]] + StripComment(line[1..])
  }

  function StripLine(raw: string): string { Strip(StripComment(raw)) }

  predicate IsExecutable(line: string) {
    line != "" && line[0] != '%' && UpperChar(line[0]) in "GMTN"
  }

  /** What a raw line contributes. */
  function Kept(raw: string): Option<string> {
    var line := StripLine(raw);
    if IsExecutable(line) then Some(line) else None
  }

  function Parse(raw: string): seq<string> { Collect(SplitLines(raw), Kept) }

  method LoadFromString(raw: string) returns (lines: seq<string>)
    ensures lines == Parse(raw)
  {
    lines := KeepExecutable(SplitLines(raw));
  }

  method KeepExecutable(rows: seq<string>) returns (lines: seq<string>)
    ensures lines == Collect(rows, Kept)
  {
    lines := [];
    for i := 0 to |rows|
      invariant lines == Collect(rows[..i], Kept)
    {
      var cleaned := StripLine(rows[i]);
      LoopAdvances(rows, i, lines, cleaned);
      if IsExecutable(cleaned) {
        lines := lines + [cleaned];
      }
    }
    assert rows[..|rows|] == rows;
  }

  lemma LoopAdvances(rows: seq<string>, i: nat, lines: seq<string>, cleaned: string)
    requires i < |rows| && lines == Collect(rows[..i], Kept) && cleaned == StripLine(rows[i])
    ensures Collect(rows[..i + 1], Kept) == if IsExecutable(cleaned) then lines + [cleaned] else lines
  {
    CollectOneMore(rows, i, Kept);
    assert Kept(rows[i]) == if IsExecutable(StripLine(rows[i])) then Some(StripLine(rows[i])) else None;
  }

  lemma CollectOneMore<A, B>(xs: seq<A>, i: nat, f: A -> Option<B>)
    requires i < |xs|
    ensures f(xs[i]).None? ==> Collect(xs[..i + 1], f) == Collect(xs[..i], f)
    ensures f(xs[i]).Some? ==> Collect(xs[..i + 1], f) == Collect(xs[..i], f) + [f(xs[i]).value]
  {
    assert Front(xs[..i + 1]) == xs[..i];
  }

  // ---- What a line of the output is ----

  ghost predicate GoodLine(line: string) {
    line != "" && UpperChar(line[0]) in "GMTN" && Trimmed(line) && ';' !in line && OneLine(line)
  }

  lemma OneLineMeans(s: string)
    ensures OneLine(s) <==> forall c :: c in s ==> !IsBreak(c)
  {
  }

  lemma KeptIsGood(raw: string)
    requires OneLine(raw) && Kept(raw).Some?
    ensures GoodLine(Kept(raw).value)
  {
    StripTrims(StripComment(raw));
    OneLineMeans(raw);
    OneLineMeans(StripLine(raw));
  }

  /** Cleaning a good line again keeps it as it is. */
  lemma GoodStays(line: string)
    requires GoodLine(line)
    ensures SplitLines(line) == [line] && Kept(line) == Some(line)
  {
    StripTrims(line);
    var i := FirstBreak(line);
    assert i == |line|;
    assert StripComment(line) == line;
  }

  lemma {:induction false} SplitIsOneLine(s: string)
    ensures forall k :: 0 <= k < |SplitLines(s)| ==> OneLine(SplitLines(s)[k])
    decreases |s|
  {
    if s != "" && FirstBreak(s) < |s| {
      SplitIsOneLine(AfterBreak(s, FirstBreak(s)));
    }
  }

  /** Every output line is non-empty, trimmed, free of comments and line breaks, and starts with G, M, T or N. */
  lemma ParsedLinesAreGood(raw: string)
    ensures forall k :: 0 <= k < |Parse(raw)| ==> GoodLine(Parse(raw)[k])
  {
    SplitIsOneLine(raw);
    forall k | 0 <= k < |Parse(raw)|
      ensures GoodLine(Parse(raw)[k])
    {
      var i := CollectFrom(SplitLines(raw), Kept, k);
      KeptIsGood(SplitLines(raw)[i]);
    }
  }

  // ---- Parsing in parts ----

  lemma {:induction false} FirstBreakIs(s: string, i: nat)
    requires i <= |s| && (i < |s| ==> IsBreak(s[i])) && forall k :: 0 <= k < i ==> !IsBreak(s[k])
    ensures FirstBreak(s) == i
  {
  }

  /** The first break of a text followed by t, which starts with a newline. */
  lemma BreakInFront(a: string, t: string)
    requires t != "" && t[0] == '\n'
    ensures FirstBreak(a + t) == FirstBreak(a)
  {
    FirstBreakIs(a + t, FirstBreak(a));
  }

  lemma SliceFront(a: string, t: string, k: nat)
    requires k <= |a|
    ensures (a + t)[..k] == a[..k] && (a + t)[k..] == a[k..] + t
  {
  }

  /** What follows it. */
  lemma RestInFront(a: string, t: string, i: nat)
    requires t != "" && t[0] == '\n' && i < |a|
    ensures i + 1 == |a| && a[i] == '\r' ==> AfterBreak(a + t, i) == t[1..]
    ensures i + 1 == |a| && a[i] != '\r' ==> AfterBreak(a + t, i) == AfterBreak(a, i) + t
    ensures i + 1 < |a| ==> AfterBreak(a + t, i) == AfterBreak(a, i) + t
  {
    SliceFront(a, t, i + 1);
    if i + 2 <= |a| {
      SliceFront(a, t, i + 2);
    } else if a[i] == '\r' {
      assert (a + t)[i + 2..] == t[1..];
    }
  }

  lemma SplitAt(s: string)
    requires s != "" && FirstBreak(s) < |s|
    ensures SplitLines(s) == [s[..FirstBreak(s)]] + SplitLines(AfterBreak(s, FirstBreak(s)))
  {
  }

  /** A text with no break, or whose only break is a carriage return at its end, adds one line. */
  lemma SplitJoinedShort(a: string, t: string)
    requires t != "" && t[0] == '\n'
    requires var i := FirstBreak(a); i == |a| || (i + 1 == |a| && a[i] == '\r')
    ensures var i := FirstBreak(a);
      && SplitLines(a + t) == [a[..i]] + SplitLines(t[1..])
      && SplitLines(a) == if a == "" then [] else [a[..i]]
  {
    var i := FirstBreak(a);
    BreakInFront(a, t);
    SliceFront(a, t, i);
    SplitAt(a + t);
    if i < |a| {
      RestInFront(a, t, i);
    } else {
      assert a[..i] == a;
    }
  }

  /** Splitting joined texts gives the lines of both, with an empty one between when the first is complete. */
  lemma {:induction false} SplitJoined(a: string, t: string) returns (gap: seq<string>)
    requires t != "" && t[0] == '\n'
    ensures gap == [] || gap == [""]
    ensures SplitLines(a + t) == SplitLines(a) + gap + SplitLines(t[1..])
    decreases |a|
  {
    var i := FirstBreak(a);
    if i == |a| || (i + 1 == |a| && a[i] == '\r') {
      SplitJoinedShort(a, t);
      gap := if a == "" then [""] else [];
      EmptyBetween(SplitLines(a), gap, SplitLines(t[1..]));
    } else {
      BreakInFront(a, t);
      SliceFront(a, t, i);
      RestInFront(a, t, i);
      gap := SplitJoined(AfterBreak(a, i), t);
      SplitAt(a);
      SplitAt(a + t);
      Regroup3([a[..i]], SplitLines(AfterBreak(a, i)), gap, SplitLines(t[1..]));
    }
  }

  lemma EmptyBetween<T>(a: seq<T>, gap: seq<T>, b: seq<T>)
    ensures gap == [] ==> a + gap + b == a + b
    ensures a == [] ==> a + gap + b == gap + b
  {
  }

  lemma Regroup3<T>(a: seq<T>, b: seq<T>, c: seq<T>, d: seq<T>)
    ensures a + (b + c + d) == (a + b) + c + d
  {
  }

  /** Parsing two texts joined by a newline is parsing each. */
  lemma ParseJoined(a: string, b: string)
    ensures Parse(a + "\n" + b) == Parse(a) + Parse(b)
  {
    var t := "\n" + b;
    assert a + "\n" + b == a + t && t[1..] == b;
    var gap := SplitJoined(a, t);
    GapAddsNothing(gap);
    CollectAround(SplitLines(a), gap, SplitLines(b), Kept);
  }

  lemma CollectAround<A, B>(x: seq<A>, gap: seq<A>, y: seq<A>, f: A -> Option<B>)
    requires Collect(gap, f) == []
    ensures Collect(x + gap + y, f) == Collect(x, f) + Collect(y, f)
  {
    CollectAppend(x + gap, y, f);
    CollectAppend(x, gap, f);
  }

  lemma GapAddsNothing(gap: seq<string>)
    requires gap == [] || gap == [""]
    ensures Collect(gap, Kept) == []
  {
  }

  /** The lines joined by newlines. */
  function Join(lines: seq<string>): string {
    if lines == [] then ""
    else if |lines| == 1 then lines[0]
    else lines[0] + "\n" + Join(lines[1..])
  }

  lemma {:induction false} GoodLinesRoundTrip(lines: seq<string>)
    requires forall k :: 0 <= k < |lines| ==> GoodLine(lines[k])
    ensures Parse(Join(lines)) == lines
  {
    if lines != [] {
      GoodStays(lines[0]);
      assert Collect([lines[0]], Kept) == [lines[0]];
      if |lines| == 1 {
        assert lines == [lines[0]];
      } else {
        GoodLinesRoundTrip(lines[1..]);
        ParseJoined(lines[0], Join(lines[1..]));
        assert lines == [lines[0]] + lines[1..];
      }
    }
  }

  /** Parsing is idempotent: the output, joined and parsed again, is the same list. */
  lemma ReparseIsIdentity(raw: string)
    ensures Parse(Join(Parse(raw))) == Parse(raw)
  {
    ParsedLinesAreGood(raw);
    GoodLinesRoundTrip(Parse(raw));
  }

  // ---- The command word ----

  predicate WordIsUpper(line: string) { Upper(FirstWord(line)) == FirstWord(line) }

  predicate NoLowerWord(line: string) { !HasLower(FirstWord(line)) }

  lemma WordIsUpperIff(line: string)
    ensures WordIsUpper(line) <==> NoLowerWord(line)
  {
    UpperKeepsIff(FirstWord(line));
  }

  /** All members of a list satisfy p. */
  predicate All<A>(xs: seq<A>, p: A -> bool) { forall k :: 0 <= k < |xs| ==> p(xs[k]) }

  lemma AllIff<A>(xs: seq<A>, p: A -> bool, q: A -> bool)
    requires forall k :: 0 <= k < |xs| ==> (p(xs[k]) <==> q(xs[k]))
    ensures All(xs, p) <==> All(xs, q)
  {
  }

  /** The first word of a raw line: past the spaces, up to the next space or the comment. */
  function CommandWord(row: string): string {
    if row != "" && IsSpace(row[0]) then CommandWord(row[1..]) else UpToStop(row)
  }

  function UpToStop(s: string): string {
    if s == "" || IsSpace(s[0]) || s[0] == ';' then "" else [s[0]] + UpToStop(s[1..])
  }

  lemma {:induction false} FirstWordOfUncommented(s: string)
    ensures FirstWord(StripComment(s)) == UpToStop(s)
  {
    if s != "" && s[0] != ';' {
      FirstWordOfUncommented(s[1..]);
      assert StripComment(s)[1..] == StripComment(s[1..]);
    }
  }

  lemma {:induction false} FirstWordOfShifted(row: string)
    ensures FirstWord(StripLeft(StripComment(row))) == CommandWord(row)
  {
    if row != "" && IsSpace(row[0]) {
      FirstWordOfShifted(row[1..]);
      assert StripComment(row)[1..] == StripComment(row[1..]);
    } else {
      FirstWordOfUncommented(row);
    }
  }

  lemma {:induction false} FirstWordBeforeSpace(s: string, c: char)
    requires IsSpace(c)
    ensures FirstWord(s + [c]) == FirstWord(s)
  {
    if s != "" {
      FirstWordBeforeSpace(s[1..], c);
      assert (s + [c])[1..] == s[1..] + [c];
    }
  }

  lemma {:induction false} FirstWordOfTrimmed(s: string)
    ensures FirstWord(StripRight(s)) == FirstWord(s)
    decreases |s|
  {
    if s != "" && IsSpace(s[|s| - 1]) {
      FirstWordOfTrimmed(s[..|s| - 1]);
      FirstWordBeforeSpace(s[..|s| - 1], s[|s| - 1]);
      assert s == s[..|s| - 1] + [s[|s| - 1]];
    }
  }

  lemma WordOfLine(row: string)
    ensures FirstWord(StripLine(row)) == CommandWord(row) && Trimmed(StripLine(row))
  {
    FirstWordOfShifted(row);
    FirstWordOfTrimmed(StripLeft(StripComment(row)));
    StripTrims(StripComment(row));
  }

  lemma SameStart(a: string, b: string)
    requires (a == "" <==> b == "") && (a != "" ==> a[0] == b[0])
    ensures IsExecutable(a) <==> IsExecutable(b)
  {
  }

  /** Whether a trimmed line is executable shows in its first word. */
  lemma ExecutableByWord(line: string)
    requires Trimmed(line)
    ensures IsExecutable(line) <==> IsExecutable(FirstWord(line))
  {
    SameStart(line, FirstWord(line));
  }

  /** A row is kept exactly when its first word, seen on the raw text, is executable, and then that is the first word of
      the output line. */
  lemma KeptByWord(row: string)
    ensures Kept(row).Some? <==> IsExecutable(CommandWord(row))
    ensures Kept(row).Some? ==> FirstWord(Kept(row).value) == CommandWord(row)
  {
    WordOfLine(row);
    ExecutableByWord(StripLine(row));
  }

  /** A row without a lower-case letter in its command word, if it has a command. */
  predicate CleanRow(row: string) { IsExecutable(CommandWord(row)) ==> !HasLower(CommandWord(row)) }

  /** The pipeline is said to upper-case the command word. Every output line has it in upper case exactly when no raw
      line with a command has a lower-case letter there. */
  lemma WordsAreUpperIff(raw: string)
    ensures All(Parse(raw), WordIsUpper) <==> All(SplitLines(raw), CleanRow)
  {
    forall k | 0 <= k < |Parse(raw)|
      ensures WordIsUpper(Parse(raw)[k]) <==> NoLowerWord(Parse(raw)[k])
    {
      WordIsUpperIff(Parse(raw)[k]);
    }
    AllIff(Parse(raw), WordIsUpper, NoLowerWord);
    CollectedBoth(SplitLines(raw), Kept, NoLowerWord);
    CleanRows(SplitLines(raw));
  }

  lemma CleanRows(rows: seq<string>)
    ensures AllKept(rows, Kept, NoLowerWord) <==> All(rows, CleanRow)
  {
    forall i | 0 <= i < |rows|
      ensures (Kept(rows[i]).None? || NoLowerWord(Kept(rows[i]).value)) <==> CleanRow(rows[i])
    {
      KeptByWord(rows[i]);
    }
  }

  /** Whatever f makes of the members it accepts satisfies p. */
  predicate AllKept<A, B>(xs: seq<A>, f: A -> Option<B>, p: B -> bool) {
    forall i :: 0 <= i < |xs| ==> f(xs[i]).None? || p(f(xs[i]).value)
  }

  /** What holds of everything collected is what holds of everything accepted. */
  lemma CollectedBoth<A, B>(xs: seq<A>, f: A -> Option<B>, p: B -> bool)
    ensures All(Collect(xs, f), p) <==> AllKept(xs, f, p)
  {
    forall k | 0 <= k < |Collect(xs, f)|
      ensures exists i :: 0 <= i < |xs| && f(xs[i]) == Some(Collect(xs, f)[k])
    {
      var i := CollectFrom(xs, f, k);
    }
    forall i | 0 <= i < |xs| && f(xs[i]).Some?
      ensures f(xs[i]).value in Collect(xs, f)
    {
      CollectKeeps(xs, f, i);
    }
  }

  lemma {:induction false} CollectKeeps<A, B>(xs: seq<A>, f: A -> Option<B>, i: nat)
    requires i < |xs| && f(xs[i]).Some?
    ensures f(xs[i]).value in Collect(xs, f)
  {
    if i < |xs| - 1 {
      CollectKeeps(Front(xs), f, i);
    }
  }

  /** A text for which it is not. */
  lemma LowerCaseWordIsKept()
    ensures Parse("g28") == ["g28"]
  {
    assert Trimmed("g28") && OneLine("g28");
    GoodStays("g28");
  }
}
