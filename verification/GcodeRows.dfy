/** The lines a G-code text is parsed to, said of the text itself (src/jobs/gcode_pipeline.py). */
module GcodeRows {
  import opened Basics
  import opened Text
  import opened Gcode

  // ---- One row ----

  /** The row holds a command from i to j: before the first semicolon, which is at c if there is one, there is nothing
      else but space, and the command starts with one of G, M, T and N in either case. */
  predicate CommandAt(row: string, c: nat, i: nat, j: nat) {
    && i < j <= c <= |row|
    && (forall k :: 0 <= k < c ==> row[k] != ';') && (c < |row| ==> row[c] == ';')
    && Blank(row, 0, i) && Blank(row, j, c) && !SpaceCode(row[i]) && !SpaceCode(row[j - 1])
    && row[i] in "GMTNgmtn"
  }

  ghost predicate IsCommandOf(row: string, line: string) {
    exists c: nat, i: nat, j: nat :: CommandAt(row, c, i, j) && line == row[i..j]
  }

  lemma CommentIs(row: string, c: nat)
    requires c <= |row| && (forall k :: 0 <= k < c ==> row[k] != ';') && (c < |row| ==> row[c] == ';')
    ensures StripComment(row) == row[..c]
  {
    var r := StripComment(row);
    assert forall k :: 0 <= k < |r| ==> r[k] in r && r[k] == row[k];
  }

  lemma CommentEnds(row: string) returns (c: nat)
    ensures c <= |row| && (forall k :: 0 <= k < c ==> row[k] != ';') && (c < |row| ==> row[c] == ';')
    ensures StripComment(row) == row[..c]
  {
    c := |StripComment(row)|;
    forall k | 0 <= k < c
      ensures row[k] != ';'
    {
      assert StripComment(row)[k] == row[k];
    }
  }

  lemma LetterIs(c: char)
    ensures UpperChar(c) in "GMTN" && c != '%' <==> c in "GMTNgmtn"
  {
  }

  lemma CoreOfFront(row: string, c: nat, i: nat, j: nat)
    requires c <= |row| && i < j <= c
    ensures IsCore(row[..c], i, j) <==>
            Blank(row, 0, i) && Blank(row, j, c) && !SpaceCode(row[i]) && !SpaceCode(row[j - 1])
    ensures row[..c][i..j] == row[i..j] && row[i..j][0] == row[i]
  {
    assert forall k :: 0 <= k < c ==> row[..c][k] == row[k];
  }

  /** A row gives a line to the output exactly when the line is its command. */
  lemma KeptIff(row: string, line: string)
    ensures Kept(row) == Some(line) <==> IsCommandOf(row, line)
  {
    if Kept(row) == Some(line) {
      var c := CommentEnds(row);
      var i, j := StripIsCore(row[..c]);
      CoreOfFront(row, c, i, j);
      LetterIs(row[i]);
      assert CommandAt(row, c, i, j);
    }
    if IsCommandOf(row, line) {
      var c: nat, i: nat, j: nat :| CommandAt(row, c, i, j) && line == row[i..j];
      CommentIs(row, c);
      CoreOfFront(row, c, i, j);
      StripIff(row[..c], line);
      LetterIs(row[i]);
    }
  }

  // ---- The rows of a text ----

  /** A line break: a carriage return with a newline, or one of the characters that break lines, by their codes. */
  predicate IsSeparator(s: string) {
    s == "\r\n" || (|s| == 1 && s[0] as int in {10, 11, 12, 13, 28, 29, 30, 133, 8232, 8233})
  }

  predicate HasBreak(s: string) { exists k :: 0 <= k < |s| && IsSeparator([s[k]]) }

  /** The rows with what ends each of them, in order. */
  function Weave(rows: seq<string>, ends: seq<string>): string
    requires |rows| == |ends|
  {
    if rows == [] then "" else rows[0] + ends[0] + Weave(rows[1..], ends[1..])
  }

  /** The k-th row ends here: with a separator, or, the last one, with the text. */
  predicate EndsRow(rows: seq<string>, ends: seq<string>, k: nat)
    requires k < |rows| == |ends|
  {
    && (IsSeparator(ends[k]) || (ends[k] == "" && k + 1 == |rows| && rows[k] != ""))
    && (ends[k] == "\r" && k + 1 < |rows| && rows[k + 1] == "" ==> ends[k + 1] != "\n")
  }

  /** No row has a break in it, and no carriage return is parted from its newline. */
  ghost predicate AreRows(rows: seq<string>, ends: seq<string>) {
    && |rows| == |ends|
    && (forall k :: 0 <= k < |rows| ==> !HasBreak(rows[k]))
    && (forall k :: 0 <= k < |rows| ==> EndsRow(rows, ends, k))
  }

  lemma BreakIs(c: char)
    ensures IsSeparator([c]) <==> IsBreak(c)
  {
    assert [c][0] == c;
  }

  lemma RowHasNoBreak(s: string)
    requires OneLine(s)
    ensures !HasBreak(s)
  {
    if HasBreak(s) {
      var k :| 0 <= k < |s| && IsSeparator([s[k]]);
      BreakIs(s[k]);
    }
  }

  function EndAt(s: string, i: nat): string
    requires i < |s|
  {
    if s[i] == '\r' && i + 1 < |s| && s[i + 1] == '\n' then "\r\n" else [s[i]]
  }

  lemma RowInFront(s: string, i: nat, rows: seq<string>, ends: seq<string>)
    requires i < |s| && IsBreak(s[i]) && OneLine(s[..i])
    requires AreRows(rows, ends) && Weave(rows, ends) == AfterBreak(s, i)
    ensures AreRows([s[..i]] + rows, [EndAt(s, i)] + ends)
    ensures Weave([s[..i]] + rows, [EndAt(s, i)] + ends) == s
  {
    var all, allEnds := [s[..i]] + rows, [EndAt(s, i)] + ends;
    BreakIs(s[i]);
    RowHasNoBreak(s[..i]);
    assert all[1..] == rows && allEnds[1..] == ends;
    assert s == s[..i] + EndAt(s, i) + AfterBreak(s, i);
    forall k | 0 <= k < |all|
      ensures !HasBreak(all[k]) && EndsRow(all, allEnds, k)
    {
      if k > 0 {
        assert all[k] == rows[k - 1] && allEnds[k] == ends[k - 1] && EndsRow(rows, ends, k - 1);
      } else if rows != [] && rows[0] == "" && EndAt(s, i) == "\r" {
        NextStarts(rows, ends);
      }
    }
  }

  lemma NextStarts(rows: seq<string>, ends: seq<string>)
    requires |rows| == |ends| > 0 && rows[0] == ""
    ensures ends[0] == "\n" ==> Weave(rows, ends) != "" && Weave(rows, ends)[0] == '\n'
  {
  }

  /** Splitting a text gives its rows. */
  lemma {:induction false} SplitGivesRows(s: string) returns (ends: seq<string>)
    ensures AreRows(SplitLines(s), ends) && Weave(SplitLines(s), ends) == s
    decreases |s|
  {
    if s == "" {
      return [];
    }
    var i := FirstBreak(s);
    if i == |s| {
      RowHasNoBreak(s);
      ends := [""];
      assert Weave([s], [""]) == s;
    } else {
      var rest := SplitGivesRows(AfterBreak(s, i));
      RowInFront(s, i, SplitLines(AfterBreak(s, i)), rest);
      ends := [EndAt(s, i)] + rest;
    }
  }

  /** Parsing a text gives the commands of its rows, in order: the rows with what ends them make up the text, the k-th
      line is the command of the row at[k], and every other row has none. */
  lemma ParseGivesCommands(raw: string) returns (rows: seq<string>, ends: seq<string>, at: seq<nat>)
    ensures AreRows(rows, ends) && Weave(rows, ends) == raw
    ensures Increasing(at, |rows|) && |at| == |Parse(raw)|
    ensures forall k :: 0 <= k < |at| ==> IsCommandOf(rows[at[k]], Parse(raw)[k])
    ensures forall i :: 0 <= i < |rows| && i !in at ==> forall line :: !IsCommandOf(rows[i], line)
  {
    rows := SplitLines(raw);
    ends := SplitGivesRows(raw);
    at := CollectPicks(rows, Kept);
    forall k | 0 <= k < |at|
      ensures IsCommandOf(rows[at[k]], Parse(raw)[k])
    {
      KeptIff(rows[at[k]], Parse(raw)[k]);
    }
    forall i, line | 0 <= i < |rows| && i !in at
      ensures !IsCommandOf(rows[i], line)
    {
      KeptIff(rows[i], line);
    }
  }

  /** A command before a comment is kept whole. */
  lemma CommentedMoveIsKept()
    ensures IsCommandOf("G1 X10 ; move", "G1 X10") && Kept("G1 X10 ; move") == Some("G1 X10")
  {
    var row := "G1 X10 ; move";
    assert CommandAt(row, 7, 0, 6) && row[0..6] == "G1 X10";
    KeptIff(row, "G1 X10");
  }
}
