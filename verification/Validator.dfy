/** Which command texts are accepted (src/engine/validator.py). Digits and case mapping are ASCII only. */
module Validator {
  import opened Basics
  import opened Text

  const MAX_COMMAND_LENGTH: nat := 256

  datatype Problem = EmptyText | TooLong | UnknownPrefix | Malformed

  datatype Verdict = Accepted(text: string) | Refused(problem: Problem)

  predicate IsDigit(c: char) { '0' <= c <= '9' }

  predicate AllDigits(s: string) { forall k :: 0 <= k < |s| ==> IsDigit(s[k]) }

  predicate StartsAllowed(s: string) {
    StartsWith(s, "G") || StartsWith(s, "M") || StartsWith(s, "T") || StartsWith(s, ";")
  }

  /** The pattern: one letter, digits, and then nothing or a space followed by anything on the same line. */
  ghost predicate Matches(s: string) {
    && s != "" && s[0] in "GMT;"
    && exists d :: 1 <= d <= |s| && AllDigits(s[1..d]) && EndsWord(s, d)
  }

  /** After the digits the text ends, or a space follows with no newline behind it. */
  predicate EndsWord(s: string, d: nat)
    requires d <= |s|
  {
    d == |s| || (IsSpace(s[d]) && '\n' !in s[d + 1..])
  }

  /** Where the digits from position k on end. */
  function DigitsEnd(s: string, k: nat): (d: nat)
    requires k <= |s|
    ensures k <= d <= |s| && AllDigits(s[k..d]) && (d < |s| ==> !IsDigit(s[d]))
    decreases |s| - k
  {
    if k < |s| && IsDigit(s[k]) then
      var d := DigitsEnd(s, k + 1);
      assert s[k..d] == [s[k]] + s[k + 1..d];
      d
    else k
  }

  predicate WellFormed(s: string) { s != "" && s[0] in "GMT;" && EndsWord(s, DigitsEnd(s, 1)) }

  /** Taking all the digits loses no match, so no backtracking is needed. */
  lemma WellFormedIsMatch(s: string)
    ensures WellFormed(s) <==> Matches(s)
  {
    if s != "" && s[0] in "GMT;" {
      var d := DigitsEnd(s, 1);
      assert 1 <= d <= |s| && AllDigits(s[1..d]);
      if e :| 1 <= e <= |s| && AllDigits(s[1..e]) && EndsWord(s, e) {
        AllDigitsEnd(s, e);
      }
    }
  }

  /** Digits that end where a word ends are all the digits there are. */
  lemma AllDigitsEnd(s: string, e: nat)
    requires 1 <= e <= |s| && AllDigits(s[1..e]) && EndsWord(s, e)
    ensures DigitsEnd(s, 1) == e
  {
    var d := DigitsEnd(s, 1);
    DigitsIn(s, e);
    DigitsIn(s, d);
  }

  lemma DigitsIn(s: string, d: nat)
    requires 1 <= d <= |s| && AllDigits(s[1..d])
    ensures forall k :: 1 <= k < d ==> IsDigit(s[k]) && !IsSpace(s[k])
  {
    forall k | 1 <= k < d
      ensures IsDigit(s[k]) && !IsSpace(s[k])
    {
      assert s[1..d][k - 1] == s[k];
    }
  }

  function ValidateCommand(gcode: string): Verdict {
    var cleaned := Strip(gcode);
    if cleaned == "" then Refused(EmptyText)
    else if |cleaned| > MAX_COMMAND_LENGTH then Refused(TooLong)
    else if !StartsAllowed(Upper(cleaned)) then Refused(UnknownPrefix)
    else if !WellFormed(Upper(cleaned)) then Refused(Malformed)
    else Accepted(cleaned)
  }

  /** An accepted text is the input without outer space, in its own case; it is short, trimmed and matches. */
  lemma AcceptedMeans(gcode: string)
    ensures var v, cleaned := ValidateCommand(gcode), Strip(gcode);
      v.Accepted? <==> cleaned != "" && |cleaned| <= MAX_COMMAND_LENGTH && Matches(Upper(cleaned))
    ensures var v := ValidateCommand(gcode); v.Accepted? ==> v.text == Strip(gcode) && Trimmed(v.text)
  {
    StripTrims(gcode);
    WellFormedIsMatch(Upper(Strip(gcode)));
    if Strip(gcode) != "" {
      StartsIffIn(Upper(Strip(gcode)));
    }
  }

  // ---- The accepted texts, written out ----

  /** The first d characters are a letter and digits, and nothing follows, or a space and then no newline. */
  predicate WordEndsAt(t: string, d: nat) {
    && 1 <= d <= |t| && (forall k :: 1 <= k < d ==> '0' <= t[k] <= '9')
    && (d == |t| || (SpaceCode(t[d]) && forall k :: d < k < |t| ==> t[k] != '\n'))
  }

  /** At most 256 characters that start with one of G, M, T and the semicolon, in either case. */
  ghost predicate IsCommand(t: string) {
    && 0 < |t| <= 256 && t[0] in "GMT;gmt"
    && exists d: nat :: WordEndsAt(t, d)
  }

  lemma UpperChars(c: char)
    ensures UpperChar(c) in "GMT;" <==> c in "GMT;gmt"
    ensures IsDigit(UpperChar(c)) <==> '0' <= c <= '9'
    ensures IsSpace(UpperChar(c)) <==> SpaceCode(c)
    ensures UpperChar(c) == '\n' <==> c == '\n'
  {
  }

  lemma WordEndsUpper(t: string, d: nat)
    requires 1 <= d <= |t|
    ensures AllDigits(Upper(t)[1..d]) && EndsWord(Upper(t), d) <==> WordEndsAt(t, d)
  {
    var u := Upper(t);
    forall k | 0 <= k < |t|
      ensures IsDigit(u[k]) <==> '0' <= t[k] <= '9'
      ensures IsSpace(u[k]) <==> SpaceCode(t[k])
      ensures u[k] == '\n' <==> t[k] == '\n'
    {
      UpperChars(t[k]);
    }
    assert forall k :: 1 <= k < d ==> u[1..d][k - 1] == u[k];
    assert d < |t| ==> forall k :: d < k < |t| ==> u[d + 1..][k - d - 1] == u[k];
  }

  lemma MatchesUpper(t: string)
    requires |t| <= 256
    ensures t != "" && Matches(Upper(t)) <==> IsCommand(t)
  {
    if t != "" {
      UpperChars(t[0]);
    }
    forall d: nat | 1 <= d <= |t|
      ensures AllDigits(Upper(t)[1..d]) && EndsWord(Upper(t), d) <==> WordEndsAt(t, d)
    {
      WordEndsUpper(t, d);
    }
  }

  /** A text is what validation makes of an input exactly when it is the input without outer space and a command. */
  lemma AcceptedIff(gcode: string, text: string)
    ensures ValidateCommand(gcode) == Accepted(text) <==> CoreIs(gcode, text) && IsCommand(text)
  {
    StripIff(gcode, text);
    AcceptedMeans(gcode);
    if |Strip(gcode)| <= 256 {
      MatchesUpper(Strip(gcode));
    }
  }

  /** The result is said to be upper-cased. It is exactly when the stripped input has no lower-case letter. */
  lemma AcceptedIsUpperIff(gcode: string)
    requires ValidateCommand(gcode).Accepted?
    ensures ValidateCommand(gcode).text == Upper(Strip(gcode)) <==> !HasLower(Strip(gcode))
  {
    UpperKeepsIff(Strip(gcode));
  }

  lemma PlainIsWellFormed()
    ensures WellFormed("G28") && StartsAllowed("G28") && Upper("g28") == "G28"
  {
    assert DigitsEnd("G28", 1) == 3;
    var g := "g28";
    assert Upper(g) == "G28";
  }

  /** An input for which it is not. */
  lemma LowerCaseIsKept()
    ensures ValidateCommand("g28") == Accepted("g28") && Upper("g28") == "G28"
  {
    var g := "g28";
    PlainIsWellFormed();
    StripTrims(g);
    assert Trimmed(g);
  }

  /** Validating an accepted text again accepts it unchanged. */
  lemma ValidationIsIdempotent(gcode: string)
    requires ValidateCommand(gcode).Accepted?
    ensures ValidateCommand(ValidateCommand(gcode).text) == ValidateCommand(gcode)
  {
    var text := ValidateCommand(gcode).text;
    AcceptedIff(gcode, text);
    CoreOfCore(gcode, text);
    AcceptedIff(text, text);
  }

  /** The validator's word on each command. */
  function Verdicts(commands: seq<string>): (r: seq<Verdict>)
    ensures |r| == |commands|
  {
    Mapped(commands, ValidateCommand)
  }

  /** The accepted texts, in order, and the refusals. */
  function Texts(verdicts: seq<Verdict>): seq<string> {
    if verdicts == [] then []
    else if Last(verdicts).Accepted? then Texts(Front(verdicts)) + [Last(verdicts).text]
    else Texts(Front(verdicts))
  }

  function Problems(verdicts: seq<Verdict>): seq<Problem> {
    if verdicts == [] then []
    else if Last(verdicts).Accepted? then Problems(Front(verdicts))
    else Problems(Front(verdicts)) + [Last(verdicts).problem]
  }

  function ValidText(gcode: string): Option<string> {
    var v := ValidateCommand(gcode);
    if v.Accepted? then Some(v.text) else None
  }

  function ProblemOf(gcode: string): Option<Problem> {
    var v := ValidateCommand(gcode);
    if v.Refused? then Some(v.problem) else None
  }

  lemma {:induction false} BatchCollects(commands: seq<string>)
    ensures Texts(Verdicts(commands)) == Collect(commands, ValidText)
    ensures Problems(Verdicts(commands)) == Collect(commands, ProblemOf)
  {
    if commands != [] {
      BatchCollects(Front(commands));
      FrontAndLast(commands);
      MappedMore(Front(commands), Last(commands), ValidateCommand);
      SplitOneMore(Verdicts(Front(commands)), ValidateCommand(Last(commands)));
    }
  }

  /** What is wrong with an input that, without outer space, is text: the first of these that applies. */
  ghost predicate IsProblem(text: string, problem: Problem) {
    match problem
    case EmptyText => text == ""
    case TooLong => |text| > 256
    case UnknownPrefix => 0 < |text| <= 256 && text[0] !in "GMT;gmt"
    case Malformed => 0 < |text| <= 256 && text[0] in "GMT;gmt" && forall d: nat :: !WordEndsAt(text, d)
  }

  lemma RefusedIff(gcode: string, text: string, problem: Problem)
    requires CoreIs(gcode, text)
    ensures ValidateCommand(gcode) == Refused(problem) <==> IsProblem(text, problem)
  {
    StripIff(gcode, text);
    if 0 < |text| <= 256 {
      UpperChars(text[0]);
      StartsIffIn(Upper(text));
      MatchesUpper(text);
      WellFormedIsMatch(Upper(text));
    }
  }

  lemma StartsIffIn(u: string)
    requires u != ""
    ensures StartsAllowed(u) <==> u[0] in "GMT;"
  {
    assert u[..1] == [u[0]];
  }

  /** The accepted texts of a batch are its commands without outer space, in order; the refusals are what is wrong with
      the other inputs, in order. */
  lemma BatchIs(commands: seq<string>) returns (at: seq<nat>, off: seq<nat>)
    ensures Increasing(at, |commands|) && |at| == |Texts(Verdicts(commands))|
    ensures Increasing(off, |commands|) && |off| == |Problems(Verdicts(commands))|
    ensures forall i: nat :: i < |commands| ==> (i in at <==> i !in off)
    ensures forall k :: 0 <= k < |at| ==>
      var text := Texts(Verdicts(commands))[k]; CoreIs(commands[at[k]], text) && IsCommand(text)
    ensures forall k, text :: 0 <= k < |off| && CoreIs(commands[off[k]], text) ==>
      IsProblem(text, Problems(Verdicts(commands))[k])
  {
    BatchCollects(commands);
    at := CollectPicks(commands, ValidText);
    off := CollectPicks(commands, ProblemOf);
    forall k | 0 <= k < |at|
      ensures var text := Texts(Verdicts(commands))[k]; CoreIs(commands[at[k]], text) && IsCommand(text)
    {
      AcceptedIff(commands[at[k]], Texts(Verdicts(commands))[k]);
    }
    forall k, text | 0 <= k < |off| && CoreIs(commands[off[k]], text)
      ensures IsProblem(text, Problems(Verdicts(commands))[k])
    {
      RefusedIff(commands[off[k]], text, Problems(Verdicts(commands))[k]);
    }
    forall i: nat | i < |commands|
      ensures i in at <==> i !in off
    {
      OneOrOther(commands, at, off, i);
    }
  }

  lemma OneOrOther(commands: seq<string>, at: seq<nat>, off: seq<nat>, i: nat)
    requires i < |commands|
    requires Picks(commands, ValidText, at, Collect(commands, ValidText))
    requires Picks(commands, ProblemOf, off, Collect(commands, ProblemOf))
    ensures i in at <==> i !in off
  {
    PickedIff(commands, ValidText, at, Collect(commands, ValidText), i);
    PickedIff(commands, ProblemOf, off, Collect(commands, ProblemOf), i);
  }

  lemma VerdictsGrow(commands: seq<string>, i: nat)
    requires i < |commands|
    ensures Verdicts(commands[..i + 1]) == Verdicts(commands[..i]) + [ValidateCommand(commands[i])]
  {
    assert commands[..i + 1] == commands[..i] + [commands[i]];
    MappedMore(commands[..i], commands[i], ValidateCommand);
  }

  lemma SplitOneMore(verdicts: seq<Verdict>, v: Verdict)
    ensures Texts(verdicts + [v]) == if v.Accepted? then Texts(verdicts) + [v.text] else Texts(verdicts)
    ensures Problems(verdicts + [v]) == if v.Accepted? then Problems(verdicts) else Problems(verdicts) + [v.problem]
  {
    assert Front(verdicts + [v]) == verdicts;
  }

  method ValidateBatch(commands: seq<string>) returns (valid: seq<string>, errors: seq<Problem>)
    ensures valid == Texts(Verdicts(commands)) && errors == Problems(Verdicts(commands))
    ensures |valid| + |errors| == |commands|
  {
    valid, errors := [], [];
    for i := 0 to |commands|
      invariant valid == Texts(Verdicts(commands[..i])) && errors == Problems(Verdicts(commands[..i]))
      invariant |valid| + |errors| == i
    {
      VerdictsGrow(commands, i);
      SplitOneMore(Verdicts(commands[..i]), ValidateCommand(commands[i]));
      match ValidateCommand(commands[i]) {
        case Accepted(text) => valid := valid + [text];
        case Refused(problem) => errors := errors + [problem];
      }
    }
    assert commands[..|commands|] == commands;
  }
}
