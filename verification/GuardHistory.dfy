/** When PAUSE is answered, said of the calls and their positions (src/vision/failure_guard.py). */
module GuardHistory {
  import opened Basics
  import opened FailureGuard

  /** A FAILURE with enough confidence. */
  predicate Counts(c: Call, s: Settings) {
    c.Result? && c.label_ == Failure && c.confidence >= s.confidenceMin
  }

  /** OK, UNCERTAIN and reset. */
  predicate Ends(c: Call) { c.Reset? || c.label_ == Fine || c.label_ == Uncertain }

  /** The streak before the k-th call began at b: just after the last call that ended one or was answered with PAUSE. */
  ghost predicate StreakFrom(calls: seq<Call>, pauses: seq<bool>, b: nat, k: nat)
    requires k <= |calls| == |pauses|
  {
    && b <= k && (forall i :: b <= i < k ==> !Ends(calls[i]) && !pauses[i])
    && (b > 0 ==> Ends(calls[b - 1]) || pauses[b - 1])
  }

  /** The positions of the FAILUREs that count, from b to before k. */
  function Counted(calls: seq<Call>, b: nat, k: nat, s: Settings): set<nat>
    requires k <= |calls|
  {
    set i: nat | b <= i < k && Counts(calls[i], s)
  }

  /** The call p was answered with PAUSE, none after it was, and there has been no reset since. */
  ghost predicate LastPauseAt(calls: seq<Call>, pauses: seq<bool>, p: nat, k: nat)
    requires k <= |calls| == |pauses|
  {
    && p < k && pauses[p] && (forall i :: p < i < k ==> !pauses[i])
    && (forall i :: p <= i < k ==> !calls[i].Reset?)
  }

  /** The cooldown since the last PAUSE is over at the k-th call; when there was none it counts from zero. */
  ghost predicate Cooled(calls: seq<Call>, pauses: seq<bool>, k: nat, s: Settings)
    requires k < |calls| == |pauses| && calls[k].Result?
  {
    && (forall p: nat :: LastPauseAt(calls, pauses, p, k) ==> calls[k].now - calls[p].now >= s.cooldown)
    && ((forall p: nat :: !LastPauseAt(calls, pauses, p, k)) ==> calls[k].now >= s.cooldown)
  }

  lemma EndsIsBreaks(c: Call)
    ensures Ends(c) <==> Breaks(c)
  {
  }

  lemma {:induction false} StreakFromIs(calls: seq<Call>, pauses: seq<bool>, b: nat)
    requires |calls| == |pauses| && StreakFrom(calls, pauses, b, |calls|)
    ensures StreakStart(calls, pauses) == b
  {
    var n := StreakStart(calls, pauses);
    if n < b {
      EndsIsBreaks(calls[b - 1]);
    } else if b < n {
      EndsIsBreaks(calls[n - 1]);
    }
  }

  lemma {:induction false} CountedAre(calls: seq<Call>, b: nat, k: nat, s: Settings)
    requires b <= k <= |calls|
    ensures Confidents(calls[b..k], s) == |Counted(calls, b, k, s)|
    decreases k
  {
    if b == k {
      assert Counted(calls, b, k, s) == {};
    } else {
      CountedAre(calls, b, k - 1, s);
      assert Front(calls[b..k]) == calls[b..k - 1];
      var before := Counted(calls, b, k - 1, s);
      if Counts(calls[k - 1], s) {
        assert Counted(calls, b, k, s) == before + {k - 1};
      } else {
        assert Counted(calls, b, k, s) == before;
      }
    }
  }

  lemma LastPauseBefore(calls: seq<Call>, pauses: seq<bool>, p: nat)
    requires |calls| == |pauses| && calls != [] && !Last(calls).Reset? && !Last(pauses)
    ensures LastPauseAt(calls, pauses, p, |calls|) <==> LastPauseAt(Front(calls), Front(pauses), p, |calls| - 1)
  {
    var n := |calls| - 1;
    assert forall i :: 0 <= i < n ==> Front(calls)[i] == calls[i] && Front(pauses)[i] == pauses[i];
  }

  /** The clock stands where the last PAUSE since the last reset was answered, or at zero. */
  lemma {:induction false} LastPauseIs(calls: seq<Call>, pauses: seq<bool>)
    requires |calls| == |pauses|
    ensures forall p: nat :: LastPauseAt(calls, pauses, p, |calls|) ==> LastPause(calls, pauses) == calls[p].now
    ensures (forall p: nat :: !LastPauseAt(calls, pauses, p, |calls|)) ==> LastPause(calls, pauses) == 0.0
  {
    if calls != [] && !Last(calls).Reset? {
      if Last(pauses) {
        assert LastPauseAt(calls, pauses, |calls| - 1, |calls|);
      } else {
        LastPauseIs(Front(calls), Front(pauses));
        forall p: nat
          ensures LastPauseAt(calls, pauses, p, |calls|) <==> LastPauseAt(Front(calls), Front(pauses), p, |calls| - 1)
        {
          LastPauseBefore(calls, pauses, p);
        }
        if forall p: nat :: !LastPauseAt(calls, pauses, p, |calls|) {
          forall p: nat
            ensures !LastPauseAt(Front(calls), Front(pauses), p, |Front(calls)|)
          {
            assert !LastPauseAt(calls, pauses, p, |calls|);
          }
        }
      }
    }
  }

  lemma PrefixSees(calls: seq<Call>, pauses: seq<bool>, p: nat, k: nat)
    requires k <= |calls| == |pauses|
    ensures LastPauseAt(calls[..k], pauses[..k], p, k) <==> LastPauseAt(calls, pauses, p, k)
  {
  }

  lemma CooledIs(calls: seq<Call>, pauses: seq<bool>, k: nat, s: Settings)
    requires k < |calls| == |pauses| && calls[k].Result?
    ensures Cooled(calls, pauses, k, s) <==> calls[k].now - LastPause(calls[..k], pauses[..k]) >= s.cooldown
  {
    var before, told := calls[..k], pauses[..k];
    LastPauseIs(before, told);
    forall p: nat
      ensures LastPauseAt(before, told, p, k) <==> LastPauseAt(calls, pauses, p, k)
    {
      PrefixSees(calls, pauses, p, k);
    }
    if p: nat :| LastPauseAt(calls, pauses, p, k) {
      assert LastPauseAt(before, told, p, k) && before[p] == calls[p];
    } else {
      assert forall p: nat :: !LastPauseAt(before, told, p, k);
    }
  }

  /** In every history a call is answered with PAUSE exactly when it is a FAILURE that counts, with it at least the
      threshold of them have come since the streak began, and the cooldown is over. */
  lemma PausedIff(calls: seq<Call>, pauses: seq<bool>, s: Settings, b: nat, k: nat)
    requires Explains(calls, pauses, s) && k < |calls| && StreakFrom(calls, pauses, b, k)
    ensures pauses[k] <==>
            Counts(calls[k], s) && |Counted(calls, b, k + 1, s)| >= s.threshold && Cooled(calls, pauses, k, s)
  {
    var before, told := calls[..k], pauses[..k];
    ExplainsAt(calls, pauses, s, k);
    assert StreakFrom(before, told, b, k);
    StreakFromIs(before, told, b);
    assert before[b..] == calls[b..k];
    CountedAre(calls, b, k, s);
    if Counts(calls[k], s) {
      assert Counted(calls, b, k + 1, s) == Counted(calls, b, k, s) + {k};
      CooledIs(calls, pauses, k, s);
    }
  }

  /** There always is such a b. */
  lemma StreakBegins(calls: seq<Call>, pauses: seq<bool>, k: nat) returns (b: nat)
    requires k <= |calls| == |pauses|
    ensures StreakFrom(calls, pauses, b, k)
  {
    var before, told := calls[..k], pauses[..k];
    b := StreakStart(before, told);
    forall i | 0 <= i < k
      ensures before[i] == calls[i] && told[i] == pauses[i] && (Ends(calls[i]) <==> Breaks(before[i]))
    {
      EndsIsBreaks(calls[i]);
    }
  }
}
