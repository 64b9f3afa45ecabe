/** When the vision guard pauses a print (src/vision/failure_guard.py). Confidence and time are real numbers. */
module FailureGuard {
  import opened Basics

  datatype Class = Fine | Uncertain | Failure

  datatype Action = NoAction | PauseJob

  datatype Settings = Settings(threshold: int, confidenceMin: real, cooldown: real)

  /** One call: a result with the clock at the time, or a reset. */
  datatype Call = Result(label_: Class, confidence: real, now: real) | Reset

  datatype Decision = Decision(action: Action, label_: Class, confidence: real, failures: int, cooling: bool)

  predicate Confident(c: Call, s: Settings) {
    c.Result? && c.label_.Failure? && c.confidence >= s.confidenceMin
  }

  /** OK, UNCERTAIN and reset end a streak. */
  predicate Breaks(c: Call) { c.Reset? || !c.label_.Failure? }

  // ---- What the history calls for ----

  /** Where the running streak begins: after the last call that broke it or returned PAUSE. */
  function StreakStart(calls: seq<Call>, pauses: seq<bool>): (b: nat)
    requires |calls| == |pauses|
    ensures b <= |calls|
    ensures forall i :: b <= i < |calls| ==> !Breaks(calls[i]) && !pauses[i]
    ensures b > 0 ==> Breaks(calls[b - 1]) || pauses[b - 1]
  {
    if calls == [] then 0
    else if Breaks(Last(calls)) || Last(pauses) then |calls|
    else StreakStart(Front(calls), Front(pauses))
  }

  function Confidents(calls: seq<Call>, s: Settings): nat {
    if calls == [] then 0 else Confidents(Front(calls), s) + (if Confident(Last(calls), s) then 1 else 0)
  }

  function Streak(calls: seq<Call>, pauses: seq<bool>, s: Settings): nat
    requires |calls| == |pauses|
  {
    Confidents(calls[StreakStart(calls, pauses)..], s)
  }

  /** When the last PAUSE since the last reset was given; zero when there is none. */
  function LastPause(calls: seq<Call>, pauses: seq<bool>): real
    requires |calls| == |pauses|
  {
    if calls == [] || Last(calls).Reset? then 0.0
    else if Last(pauses) then Last(calls).now
    else LastPause(Front(calls), Front(pauses))
  }

  /** The next call must return PAUSE: it is a confident FAILURE, with it the confident FAILUREs of the streak reach
      the threshold, and the cooldown is over. */
  predicate Due(calls: seq<Call>, pauses: seq<bool>, c: Call, s: Settings)
    requires |calls| == |pauses|
  {
    Confident(c, s) && Streak(calls, pauses, s) + 1 >= s.threshold && c.now - LastPause(calls, pauses) >= s.cooldown
  }

  /** The answers are those the history calls for. */
  ghost predicate Explains(calls: seq<Call>, pauses: seq<bool>, s: Settings) {
    && |calls| == |pauses|
    && (calls != [] ==>
          && Explains(Front(calls), Front(pauses), s)
          && (Last(pauses) <==> Due(Front(calls), Front(pauses), Last(calls), s)))
  }

  // ---- One more call ----

  lemma StreakStep(calls: seq<Call>, pauses: seq<bool>, c: Call, paused: bool, s: Settings)
    requires |calls| == |pauses|
    ensures Streak(calls + [c], pauses + [paused], s)
         == if Breaks(c) || paused then 0 else Streak(calls, pauses, s) + if Confident(c, s) then 1 else 0
    ensures LastPause(calls + [c], pauses + [paused])
         == if c.Reset? then 0.0 else if paused then c.now else LastPause(calls, pauses)
  {
    var calls', pauses' := calls + [c], pauses + [paused];
    assert Front(calls') == calls && Front(pauses') == pauses;
    var b := StreakStart(calls', pauses');
    if !Breaks(c) && !paused {
      assert Front(calls'[b..]) == calls[b..];
    }
  }

  lemma ExplainsStep(calls: seq<Call>, pauses: seq<bool>, c: Call, paused: bool, s: Settings)
    requires Explains(calls, pauses, s) && (paused <==> Due(calls, pauses, c, s))
    ensures Explains(calls + [c], pauses + [paused], s)
  {
    assert Front(calls + [c]) == calls && Front(pauses + [paused]) == pauses;
  }

  /** That is: position by position, PAUSE was returned exactly when it was due. */
  lemma {:induction false} ExplainsAt(calls: seq<Call>, pauses: seq<bool>, s: Settings, k: nat)
    requires Explains(calls, pauses, s) && k < |calls|
    ensures pauses[k] <==> Due(calls[..k], pauses[..k], calls[k], s)
  {
    if k < |calls| - 1 {
      ExplainsAt(Front(calls), Front(pauses), s, k);
      assert Front(calls)[..k] == calls[..k] && Front(pauses)[..k] == pauses[..k];
    }
  }

  /** The history determines the answers. */
  lemma {:induction false} AnswersAreUnique(calls: seq<Call>, p: seq<bool>, q: seq<bool>, s: Settings)
    requires Explains(calls, p, s) && Explains(calls, q, s)
    ensures p == q
  {
    if calls != [] {
      AnswersAreUnique(Front(calls), Front(p), Front(q), s);
      FrontAndLast(p);
      FrontAndLast(q);
    }
  }

  // ---- The object ----

  class Guard {
    const settings: Settings
    var failures: int
    var lastIntervention: real
    ghost var calls: seq<Call>
    ghost var pauses: seq<bool>       // which of the calls returned PAUSE

    ghost predicate Valid()
      reads this
    {
      && Explains(calls, pauses, settings)
      && failures == Streak(calls, pauses, settings)
      && lastIntervention == LastPause(calls, pauses)
    }

    constructor (settings: Settings)
      ensures Valid() && this.settings == settings && calls == [] && pauses == []
    {
      this.settings := settings;
      failures, lastIntervention := 0, 0.0;
      calls, pauses := [], [];
    }

    /** The answer is recorded, and it is PAUSE exactly when the history calls for it. */
    method Evaluate(label_: Class, confidence: real, now: real) returns (d: Decision)
      requires Valid()
      modifies this
      ensures Valid()
      ensures calls == old(calls) + [Result(label_, confidence, now)]
      ensures pauses == old(pauses) + [d.action.PauseJob?]
      ensures d.action.PauseJob? <==> Due(old(calls), old(pauses), Last(calls), settings)
      ensures d.label_ == label_ && d.confidence == confidence
      ensures d.failures == if d.action.PauseJob? then settings.threshold else Streak(calls, pauses, settings)
      ensures d.cooling <==> !d.action.PauseJob? && Confident(Last(calls), settings)
                             && Streak(calls, pauses, settings) >= settings.threshold
    {
      var call := Result(label_, confidence, now);
      StreakStep(calls, pauses, call, false, settings);
      StreakStep(calls, pauses, call, true, settings);
      var due := confidence >= settings.confidenceMin && label_.Failure?
                 && failures + 1 >= settings.threshold && now - lastIntervention >= settings.cooldown;
      ExplainsStep(calls, pauses, call, due, settings);
      calls, pauses := calls + [call], pauses + [due];
      if !label_.Failure? {
        failures := 0;
        return Decision(NoAction, label_, confidence, 0, false);
      }
      if confidence < settings.confidenceMin {
        return Decision(NoAction, label_, confidence, failures, false);
      }
      failures := failures + 1;
      if failures < settings.threshold {
        return Decision(NoAction, label_, confidence, failures, false);
      }
      if now - lastIntervention < settings.cooldown {
        return Decision(NoAction, label_, confidence, failures, true);
      }
      lastIntervention, failures := now, 0;
      d := Decision(PauseJob, label_, confidence, settings.threshold, false);
    }

    method Clear()
      requires Valid()
      modifies this
      ensures Valid()
      ensures calls == old(calls) + [Reset] && pauses == old(pauses) + [false]
    {
      StreakStep(calls, pauses, Reset, false, settings);
      ExplainsStep(calls, pauses, Reset, false, settings);
      failures, lastIntervention := 0, 0.0;
      calls, pauses := calls + [Reset], pauses + [false];
    }
  }

  // ---- Low confidence ----

  /** The answers a history calls for. */
  function Decided(calls: seq<Call>, s: Settings): (pauses: seq<bool>)
    ensures |pauses| == |calls|
  {
    if calls == [] then []
    else
      var before := Decided(Front(calls), s);
      before + [Due(Front(calls), before, Last(calls), s)]
  }

  lemma {:induction false} DecidedExplains(calls: seq<Call>, s: Settings)
    ensures Explains(calls, Decided(calls, s), s)
  {
    if calls != [] {
      DecidedExplains(Front(calls), s);
      ExplainsStep(Front(calls), Decided(Front(calls), s), Last(calls), Last(Decided(calls, s)), s);
      FrontAndLast(calls);
    }
  }

  predicate Low(c: Call, s: Settings) { c.Result? && c.label_.Failure? && !Confident(c, s) }

  /** The history without its low-confidence FAILUREs. */
  function Loud(calls: seq<Call>, s: Settings): seq<Call> {
    if calls == [] then []
    else if Low(Last(calls), s) then Loud(Front(calls), s)
    else Loud(Front(calls), s) + [Last(calls)]
  }

  /** The calls that were answered with PAUSE, in order. */
  function Pausing(calls: seq<Call>, pauses: seq<bool>): seq<Call>
    requires |calls| == |pauses|
  {
    if calls == [] then []
    else if Last(pauses) then Pausing(Front(calls), Front(pauses)) + [Last(calls)]
    else Pausing(Front(calls), Front(pauses))
  }

  lemma OneMoreDecided(calls: seq<Call>, c: Call, s: Settings)
    ensures var p, paused := Decided(calls, s), Due(calls, Decided(calls, s), c, s);
      && Decided(calls + [c], s) == p + [paused]
      && Pausing(calls + [c], p + [paused]) == Pausing(calls, p) + (if paused then [c] else [])
  {
    var p, paused := Decided(calls, s), Due(calls, Decided(calls, s), c, s);
    assert Front(calls + [c]) == calls && Front(p + [paused]) == p;
  }

  lemma OneMoreLoud(calls: seq<Call>, c: Call, s: Settings)
    ensures Loud(calls + [c], s) == if Low(c, s) then Loud(calls, s) else Loud(calls, s) + [c]
  {
    assert Front(calls + [c]) == calls;
  }

  /** Low-confidence FAILUREs neither count nor break a streak: without them the same calls are answered with PAUSE,
      and the streak and the clock stand where they stood. */
  lemma {:induction false} LowConfidenceIsNoise(calls: seq<Call>, s: Settings)
    ensures var loud := Loud(calls, s);
      var p, q := Decided(calls, s), Decided(loud, s);
      && Pausing(calls, p) == Pausing(loud, q)
      && Streak(calls, p, s) == Streak(loud, q, s)
      && LastPause(calls, p) == LastPause(loud, q)
  {
    if calls != [] {
      var before, c := Front(calls), Last(calls);
      FrontAndLast(calls);
      LowConfidenceIsNoise(before, s);
      NoiseStep(before, c, s);
    }
  }

  ghost predicate SameWithout(calls: seq<Call>, loud: seq<Call>, s: Settings) {
    var p, q := Decided(calls, s), Decided(loud, s);
    && Pausing(calls, p) == Pausing(loud, q)
    && Streak(calls, p, s) == Streak(loud, q, s)
    && LastPause(calls, p) == LastPause(loud, q)
  }

  lemma NoiseStep(before: seq<Call>, c: Call, s: Settings)
    requires SameWithout(before, Loud(before, s), s)
    ensures SameWithout(before + [c], Loud(before + [c], s), s)
  {
    var loud := Loud(before, s);
    var p, q := Decided(before, s), Decided(loud, s);
    OneMoreDecided(before, c, s);
    OneMoreLoud(before, c, s);
    StreakStep(before, p, c, Due(before, p, c, s), s);
    if !Low(c, s) {
      OneMoreDecided(loud, c, s);
      StreakStep(loud, q, c, Due(loud, q, c, s), s);
    }
  }

  // ---- How often it can pause ----

  function Least(s: Settings): nat { if s.threshold < 1 then 1 else s.threshold }

  function Needed(pauses: nat, threshold: nat): nat {
    if pauses == 0 then 0 else Needed(pauses - 1, threshold) + threshold
  }

  lemma {:induction false} NeededIsProduct(n: nat, t: nat)
    ensures Needed(n, t) == n * t
  {
    if n > 0 {
      NeededIsProduct(n - 1, t);
      assert (n - 1) * t + t == n * t;
    }
  }

  lemma {:induction false} StreakOnTop(calls: seq<Call>, pauses: seq<bool>, s: Settings)
    requires Explains(calls, pauses, s)
    ensures Confidents(calls, s) >= Needed(|Pausing(calls, pauses)|, Least(s)) + Streak(calls, pauses, s)
  {
    if calls != [] {
      var before, told := Front(calls), Front(pauses);
      StreakOnTop(before, told, s);
      FrontAndLast(calls);
      FrontAndLast(pauses);
      StreakStep(before, told, Last(calls), Last(pauses), s);
    }
  }

  /** n PAUSEs need n times the threshold of confident FAILUREs, those of the running streak not among them. */
  lemma PausesNeedFailures(calls: seq<Call>, pauses: seq<bool>, s: Settings)
    requires Explains(calls, pauses, s)
    ensures Confidents(calls, s) >= |Pausing(calls, pauses)| * Least(s) + Streak(calls, pauses, s)
  {
    StreakOnTop(calls, pauses, s);
    NeededIsProduct(|Pausing(calls, pauses)|, Least(s));
  }

  predicate NoReset(calls: seq<Call>) { forall k :: 0 <= k < |calls| ==> !calls[k].Reset? }

  function Times(n: nat, d: real): real { n as real * d }

  lemma OneMoreTime(n: nat, d: real)
    ensures Times(n + 1, d) == Times(n, d) + d && Times(0, d) == 0.0
  {
  }

  /** Without a reset the n-th PAUSE comes at least n cooldowns after zero, and n - 1 after the first. */
  lemma {:induction false} PausesAreSpaced(calls: seq<Call>, pauses: seq<bool>, s: Settings)
    requires Explains(calls, pauses, s) && NoReset(calls)
    ensures var given := Pausing(calls, pauses);
      if given == [] then LastPause(calls, pauses) == 0.0
      else
        && given[0].Result? && Last(given).Result? && LastPause(calls, pauses) == Last(given).now
        && Last(given).now >= Times(|given|, s.cooldown)
        && Last(given).now - given[0].now >= Times(|given| - 1, s.cooldown)
  {
    if calls != [] {
      var before, told := Front(calls), Front(pauses);
      PausesAreSpaced(before, told, s);
      if Last(pauses) {
        var n := |Pausing(before, told)|;
        OneMoreTime(n, s.cooldown);
        OneMoreTime(if n > 0 then n - 1 else 0, s.cooldown);
      }
    }
  }
}
