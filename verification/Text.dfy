/** The string operations the repository uses. Case mapping is ASCII only. */
module Text {

  /** The characters `str.strip` removes. */
  predicate IsSpace(c: char) {
    || '\t' <= c <= '\r' || '\U{1c}' <= c <= ' ' || c == '\U{85}' || c == '\U{a0}' || c == '\U{1680}'
    || '\U{2000}' <= c <= '\U{200a}' || c == '\U{2028}' || c == '\U{2029}' || c == '\U{202f}'
    || c == '\U{205f}' || c == '\U{3000}'
  }

  function StripLeft(s: string): (r: string)
    ensures |r| <= |s| && r == s[|s| - |r|..]
    ensures r == "" || !IsSpace(r[0])
  {
    if s == "" || !IsSpace(s[0]) then s else StripLeft(s[1..])
  }

  function StripRight(s: string): (r: string)
    ensures |r| <= |s| && r == s[..|r|]
    ensures r == "" || !IsSpace(r[|r| - 1])
  {
    if s == "" || !IsSpace(s[|s| - 1]) then s else StripRight(s[..|s| - 1])
  }

  function Strip(s: string): string { StripRight(StripLeft(s)) }

  /** No space at either end. */
  predicate Trimmed(s: string) {
    s == "" || (!IsSpace(s[0]) && !IsSpace(s[|s| - 1]))
  }

  lemma StripIsTrimmed(s: string)
    ensures Trimmed(Strip(s))
  {
    var l := StripLeft(s);
    var r := StripRight(l);
    if r != "" {
      assert r[0] == l[0];
    }
  }

  /** Stripping gives a trimmed text and leaves a trimmed one alone. */
  lemma StripTrims(s: string)
    ensures Trimmed(Strip(s))
    ensures Trimmed(s) ==> Strip(s) == s
    ensures forall c :: c in Strip(s) ==> c in s
  {
    StripIsTrimmed(s);
    var l := StripLeft(s);
    PartMembers(s, |s| - |l|, |StripRight(l)|);
  }

  /** Tab to carriage return, the separators 28 to 31, blank, and the Unicode spaces, by their codes. */
  predicate SpaceCode(c: char) {
    var n := c as int;
    || 9 <= n <= 13 || 28 <= n <= 32 || n in {133, 160, 5760, 8232, 8233, 8239, 8287, 12288} || 8192 <= n <= 8202
  }

  predicate Blank(s: string, from: nat, to: nat)
    requires to <= |s|
  {
    forall k :: from <= k < to ==> SpaceCode(s[k])
  }

  /** From i to j the text is what is left without outer space. */
  predicate IsCore(s: string, i: nat, j: nat) {
    && i <= j <= |s| && Blank(s, 0, i) && Blank(s, j, |s|)
    && (i < j ==> !SpaceCode(s[i]) && !SpaceCode(s[j - 1]))
  }

  lemma SpacesAre(c: char)
    ensures SpaceCode(c) <==> IsSpace(c)
  {
  }

  lemma {:induction false} StripLeftCuts(s: string)
    ensures forall k :: 0 <= k < |s| - |StripLeft(s)| ==> IsSpace(s[k])
  {
    if s != "" && IsSpace(s[0]) {
      StripLeftCuts(s[1..]);
      forall k | 0 <= k < |s| - |StripLeft(s)|
        ensures IsSpace(s[k])
      {
        assert k > 0 ==> s[k] == s[1..][k - 1];
      }
    }
  }

  lemma {:induction false} StripRightCuts(s: string)
    ensures forall k :: |StripRight(s)| <= k < |s| ==> IsSpace(s[k])
  {
    if s != "" && IsSpace(s[|s| - 1]) {
      StripRightCuts(s[..|s| - 1]);
      forall k | |StripRight(s)| <= k < |s|
        ensures IsSpace(s[k])
      {
        assert k < |s| - 1 ==> s[k] == s[..|s| - 1][k];
      }
    }
  }

  lemma BlankIs(s: string, from: nat, to: nat)
    requires to <= |s| && forall k :: from <= k < to ==> IsSpace(s[k])
    ensures Blank(s, from, to)
  {
    forall k | from <= k < to
      ensures SpaceCode(s[k])
    {
      SpacesAre(s[k]);
    }
  }

  lemma LeftIs(s: string)
    ensures var i := |s| - |StripLeft(s)|;
      && StripLeft(s) == s[i..] && Blank(s, 0, i) && (i < |s| ==> !SpaceCode(s[i]))
  {
    StripLeftCuts(s);
    BlankIs(s, 0, |s| - |StripLeft(s)|);
    if StripLeft(s) != "" {
      SpacesAre(StripLeft(s)[0]);
    }
  }

  lemma RightIs(s: string)
    ensures var j := |StripRight(s)|;
      && StripRight(s) == s[..j] && Blank(s, j, |s|) && (0 < j ==> !SpaceCode(s[j - 1]))
  {
    StripRightCuts(s);
    BlankIs(s, |StripRight(s)|, |s|);
    if StripRight(s) != "" {
      SpacesAre(StripRight(s)[|StripRight(s)| - 1]);
    }
  }

  lemma BlankShift(s: string, i: nat, from: nat)
    requires i + from <= |s| && Blank(s[i..], from, |s| - i)
    ensures Blank(s, i + from, |s|)
  {
    forall k | i + from <= k < |s|
      ensures SpaceCode(s[k])
    {
      assert s[i..][k - i] == s[k];
    }
  }

  /** Stripping cuts off the outer space and nothing else. */
  lemma StripIsCore(s: string) returns (i: nat, j: nat)
    ensures IsCore(s, i, j) && Strip(s) == s[i..j]
  {
    var l := StripLeft(s);
    var n := |StripRight(l)|;
    LeftIs(s);
    RightIs(l);
    i := |s| - |l|;
    j := i + n;
    BlankShift(s, i, n);
    SliceOfRest(s, i, n);
  }

  lemma SliceOfRest(s: string, i: nat, n: nat)
    requires i + n <= |s|
    ensures s[i..][..n] == s[i..i + n]
    ensures n > 0 ==> s[i..][0] == s[i] && s[i..][n - 1] == s[i + n - 1]
  {
  }

  lemma CoreBefore(s: string, i: nat, j: nat, a: nat, b: nat)
    requires IsCore(s, i, j) && IsCore(s, a, b) && i < j
    ensures a <= i && j <= b
  {
  }

  /** There is only one such part. */
  lemma CoreIsUnique(s: string, i: nat, j: nat, a: nat, b: nat)
    requires IsCore(s, i, j) && IsCore(s, a, b)
    ensures s[i..j] == s[a..b]
  {
    if i < j {
      CoreBefore(s, i, j, a, b);
    }
    if a < b {
      CoreBefore(s, a, b, i, j);
    }
  }

  /** t is s without outer space. */
  ghost predicate CoreIs(s: string, t: string) { exists i: nat, j: nat :: IsCore(s, i, j) && t == s[i..j] }

  lemma CoreOfCore(s: string, t: string)
    requires CoreIs(s, t)
    ensures CoreIs(t, t)
  {
    var i: nat, j: nat :| IsCore(s, i, j) && t == s[i..j];
    assert t == t[0..|t|];
    assert t != "" ==> t[0] == s[i] && t[|t| - 1] == s[j - 1];
    assert IsCore(t, 0, |t|);
  }

  /** So a text is the stripped one exactly when it is what is left without outer space. */
  lemma StripIff(s: string, t: string)
    ensures Strip(s) == t <==> CoreIs(s, t)
  {
    var a, b := StripIsCore(s);
    if CoreIs(s, t) {
      var i: nat, j: nat :| IsCore(s, i, j) && t == s[i..j];
      CoreIsUnique(s, i, j, a, b);
    }
  }

  lemma PartMembers(s: string, from: nat, length: nat)
    requires from + length <= |s|
    ensures forall c :: c in s[from..][..length] ==> c in s
  {
    forall c | c in s[from..][..length]
      ensures c in s
    {
      var i :| 0 <= i < length && s[from..][..length][i] == c;
      assert s[from + i] == c;
    }
  }

  function LowerChar(c: char): char {
    if 'A' <= c <= 'Z' then c - 'A' + 'a' else c
  }

  function UpperChar(c: char): char {
    if 'a' <= c <= 'z' then c - 'a' + 'A' else c
  }

  function Lower(s: string): (r: string)
    ensures |r| == |s| && forall k :: 0 <= k < |s| ==> r[k] == LowerChar(s[k])
  {
    seq(|s|, k requires 0 <= k < |s| => LowerChar(s[k]))
  }

  function Upper(s: string): (r: string)
    ensures |r| == |s| && forall k :: 0 <= k < |s| ==> r[k] == UpperChar(s[k])
  {
    seq(|s|, k requires 0 <= k < |s| => UpperChar(s[k]))
  }

  predicate IsLower(c: char) { 'a' <= c <= 'z' }

  predicate HasLower(s: string) { exists k :: 0 <= k < |s| && IsLower(s[k]) }

  /** Upper-casing changes a text exactly when it has a lower-case letter. */
  lemma UpperKeepsIff(s: string)
    ensures Upper(s) == s <==> !HasLower(s)
  {
    if HasLower(s) {
      var k :| 0 <= k < |s| && IsLower(s[k]);
      assert Upper(s)[k] != s[k];
    }
  }

  /** The first word: up to the first space. */
  function FirstWord(s: string): string {
    if s == "" || IsSpace(s[0]) then "" else [s[0]] + FirstWord(s[1..])
  }

  predicate StartsWith(s: string, prefix: string) {
    |prefix| <= |s| && s[..|prefix|] == prefix
  }

  predicate Contains(s: string, part: string) {
    StartsWith(s, part) || (s != "" && Contains(s[1..], part))
  }

  // ---- How Python shows a text ----

  function HexDigit(n: nat): char
    requires n < 16
  {
    "0123456789abcdef"[n]
  }

  /** One character between quotes q. */
  function ReprChar(c: char, q: char): string {
    if c == q || c == '\\' then ['\\', c]
    else if c == '\t' then "\\t"
    else if c == '\n' then "\\n"
    else if c == '\r' then "\\r"
    else if c < ' ' || c == '\U{7f}' then "\\x" + [HexDigit(c as nat / 16), HexDigit(c as nat % 16)]
    else [c]
  }

  function ReprChars(s: string, q: char): string {
    if s == "" then "" else ReprChars(s[..|s| - 1], q) + ReprChar(s[|s| - 1], q)
  }

  /** `repr` of a text: single quotes unless it holds one and no double quote. */
  function Repr(s: string): string {
    var q := if '\'' in s && '"' !in s then '"' else '\'';
    [q] + ReprChars(s, q) + [q]
  }

  /** Printable ASCII without quotes and backslashes. */
  predicate Plain(s: string) {
    forall k :: 0 <= k < |s| ==> ' ' <= s[k] <= '~' && s[k] != '\'' && s[k] != '"' && s[k] != '\\'
  }

  lemma PlainChar(c: char)
    requires ' ' <= c <= '~' && c != '\'' && c != '\\'
    ensures ReprChar(c, '\'') == [c]
  {
  }

  lemma {:induction false} PlainChars(s: string)
    requires Plain(s)
    ensures ReprChars(s, '\'') == s
  {
    if s != "" {
      var less, c := s[..|s| - 1], s[|s| - 1];
      PlainChars(less);
      PlainChar(c);
      assert s == less + [c];
    }
  }

  /** Such a text is shown as it is, between single quotes. */
  lemma PlainRepr(s: string)
    requires Plain(s)
    ensures Repr(s) == "'" + s + "'"
  {
    PlainChars(s);
  }
}
