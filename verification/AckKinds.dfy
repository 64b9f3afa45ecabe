/** Which printer lines count as answers, said of the lines themselves (src/hardware/serial_router.py). */
module AckKinds {
  import opened Basics
  import opened Text

  predicate IsAckLine(line: string) {
    var s := Strip(line);
    var sl := Lower(s);
    || sl == "ok" || StartsWith(sl, "ok ")
    || StartsWith(sl, "error") || StartsWith(s, "!!")
    || StartsWith(sl, "echo:busy")
    || StartsWith(s, "T:") || StartsWith(s, "T0:")
    || (StartsWith(s, "X:") && Contains(s, "Y:") && Contains(s, "Z:"))
    || StartsWith(s, "FIRMWARE_NAME:") || StartsWith(s, "Cap:")
  }

  /** The test the communicator ends a reply with. */
  predicate HasOk(line: string) { Contains(Lower(line), "ok") }

  /** The text starts with these letters, in either case: `lower` and `upper` are the two spellings. */
  predicate StartsEither(t: string, lower: string, upper: string)
    requires |lower| == |upper|
  {
    |lower| <= |t| && forall k :: 0 <= k < |lower| ==> t[k] == lower[k] || t[k] == upper[k]
  }

  predicate PairAt(t: string, k: nat, a: char, b: char) { k + 1 < |t| && t[k] == a && t[k + 1] == b }

  predicate HasPair(t: string, a: char, b: char) { exists k: nat :: k < |t| && PairAt(t, k, a, b) }

  /** "ok" in any case, alone or before a blank. */
  predicate SaysOk(t: string) { StartsEither(t, "ok", "OK") && (|t| == 2 || t[2] == ' ') }

  /** An error, a fatal error, or a printer that is busy. */
  predicate SaysTrouble(t: string) {
    StartsEither(t, "error", "ERROR") || StartsEither(t, "echo:busy", "ECHO:BUSY") || "!!" <= t
  }

  /** A temperature, a position, the firmware or one of its capabilities, in this spelling only. */
  predicate SaysReport(t: string) {
    || "T:" <= t || "T0:" <= t || ("X:" <= t && HasPair(t, 'Y', ':') && HasPair(t, 'Z', ':'))
    || "FIRMWARE_NAME:" <= t || "Cap:" <= t
  }

  predicate Answers(t: string) { SaysOk(t) || SaysTrouble(t) || SaysReport(t) }

  /** What is left of the line without outer space is one of these. */
  ghost predicate IsAnswer(line: string) {
    exists i: nat, j: nat :: IsCore(line, i, j) && Answers(line[i..j])
  }

  lemma EitherIs(c: char, lower: char)
    requires 'a' <= lower <= 'z' || lower == ':' || lower == ' '
    ensures LowerChar(c) == lower <==> c == lower || c == UpperChar(lower)
  {
  }

  lemma StartsEitherIs(t: string, lower: string, upper: string)
    requires |lower| == |upper|
    requires forall k :: 0 <= k < |lower| ==> ('a' <= lower[k] <= 'z' || lower[k] == ':' || lower[k] == ' ')
    requires forall k :: 0 <= k < |lower| ==> upper[k] == UpperChar(lower[k])
    ensures StartsWith(Lower(t), lower) <==> StartsEither(t, lower, upper)
  {
    if |lower| <= |t| {
      forall k | 0 <= k < |lower|
        ensures Lower(t)[k] == lower[k] <==> t[k] == lower[k] || t[k] == upper[k]
      {
        EitherIs(t[k], lower[k]);
      }
      assert forall k :: 0 <= k < |lower| ==> Lower(t)[..|lower|][k] == Lower(t)[k];
    }
  }

  lemma StartsIs(t: string, prefix: string)
    ensures StartsWith(t, prefix) <==> prefix <= t
  {
  }

  lemma {:induction false} ContainsIs(t: string, a: char, b: char)
    ensures Contains(t, [a, b]) <==> HasPair(t, a, b)
  {
    if t != "" {
      ContainsIs(t[1..], a, b);
      var rest := t[1..];
      if StartsWith(t, [a, b]) {
        assert t[0] == t[..2][0] && t[1] == t[..2][1] && PairAt(t, 0, a, b);
      }
      if HasPair(rest, a, b) {
        var k: nat :| k < |rest| && PairAt(rest, k, a, b);
        assert PairAt(t, k + 1, a, b);
      }
      if HasPair(t, a, b) {
        var k: nat :| k < |t| && PairAt(t, k, a, b);
        if k == 0 {
          assert t[..2] == [a, b];
        } else {
          assert PairAt(rest, k - 1, a, b);
          assert HasPair(rest, a, b);
        }
      }
    }
  }

  lemma OkIs(t: string)
    ensures Lower(t) == "ok" || StartsWith(Lower(t), "ok ") <==> SaysOk(t)
  {
    StartsEitherIs(t, "ok", "OK");
    StartsEitherIs(t, "ok ", "OK ");
  }

  lemma TroubleIs(t: string)
    ensures StartsWith(Lower(t), "error") || StartsWith(t, "!!") || StartsWith(Lower(t), "echo:busy")
       <==> SaysTrouble(t)
  {
    StartsEitherIs(t, "error", "ERROR");
    StartsEitherIs(t, "echo:busy", "ECHO:BUSY");
  }

  lemma ReportIs(t: string)
    ensures StartsWith(t, "T:") || StartsWith(t, "T0:")
         || (StartsWith(t, "X:") && Contains(t, "Y:") && Contains(t, "Z:"))
         || StartsWith(t, "FIRMWARE_NAME:") || StartsWith(t, "Cap:")
       <==> SaysReport(t)
  {
    ContainsIs(t, 'Y', ':');
    ContainsIs(t, 'Z', ':');
    assert "Y:" == ['Y', ':'] && "Z:" == ['Z', ':'];
    StartsIs(t, "T:");
    StartsIs(t, "T0:");
    StartsIs(t, "X:");
    StartsIs(t, "FIRMWARE_NAME:");
    StartsIs(t, "Cap:");
  }

  lemma AnswersIs(line: string)
    ensures IsAckLine(line) <==> Answers(Strip(line))
  {
    OkIs(Strip(line));
    TroubleIs(Strip(line));
    ReportIs(Strip(line));
  }

  /** The reader hands a line to the communicator exactly when it is an answer. */
  lemma AckLineIff(line: string)
    ensures IsAckLine(line) <==> IsAnswer(line)
  {
    AnswersIs(line);
    var i, j := StripIsCore(line);
    if IsAnswer(line) {
      var a: nat, b: nat :| IsCore(line, a, b) && Answers(line[a..b]);
      CoreIsUnique(line, a, b, i, j);
    }
  }

  /** An o with a k after it, in either case. */
  predicate OkAt(line: string, k: nat) { k + 1 < |line| && line[k] in "oO" && line[k + 1] in "kK" }

  lemma LowerPair(line: string, k: nat)
    ensures PairAt(Lower(line), k, 'o', 'k') <==> OkAt(line, k)
  {
    if k + 1 < |line| {
      EitherIs(line[k], 'o');
      EitherIs(line[k + 1], 'k');
    }
  }

  /** The reply ends with the first line that has one. */
  lemma HasOkIff(line: string)
    ensures HasOk(line) <==> exists k: nat :: k < |line| && OkAt(line, k)
  {
    ContainsIs(Lower(line), 'o', 'k');
    assert "ok" == ['o', 'k'];
    forall k: nat
      ensures PairAt(Lower(line), k, 'o', 'k') <==> OkAt(line, k)
    {
      LowerPair(line, k);
    }
    if HasPair(Lower(line), 'o', 'k') {
      var k: nat :| k < |line| && PairAt(Lower(line), k, 'o', 'k');
      assert OkAt(line, k);
    }
    if k: nat :| k < |line| && OkAt(line, k) {
      assert PairAt(Lower(line), k, 'o', 'k');
    }
  }

  /** A plain ok, with or without more behind it, reaches the communicator and ends its reply. */
  lemma OkIsRouted(line: string, i: nat, j: nat)
    requires IsCore(line, i, j) && SaysOk(line[i..j])
    ensures IsAckLine(line) && HasOk(line)
  {
    AckLineIff(line);
    assert Answers(line[i..j]);
    OkInside(line, i, j);
    HasOkIff(line);
  }

  lemma OkInside(line: string, i: nat, j: nat)
    requires i <= j <= |line| && SaysOk(line[i..j])
    ensures OkAt(line, i)
  {
    var t := line[i..j];
    assert t[0] == line[i] && t[1] == line[i + 1];
  }
}
