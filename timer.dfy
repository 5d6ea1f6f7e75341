/**
 * The countdown display: the "m:ss" text, the colour state chosen from the
 * fraction of time left, the pulse and the active/paused label.  The timer
 * only displays what the session holds; the countdown itself lives in
 * QuizContext.
 */
module Timer {
  import opened Decimal

  /** The three display states, in order of urgency. */
  datatype TimerState = Normal | Warning | Critical

  function Urgency(st: TimerState): nat {
    match st
    case Normal => 0
    case Warning => 1
    case Critical => 2
  }

  /**
   * The state for the default thresholds (critical at a quarter of the
   * time, warning at a half).  The source compares the floating-point ratio
   * timeLeft / totalTime; with a positive total this is decided exactly by
   * integer cross-multiplication.  With a zero total the ratio is +Infinity
   * or NaN, neither of which is <= a threshold, so the state is Normal.
   */
  function Classify(timeLeft: nat, totalTime: nat): (st: TimerState)
    ensures totalTime > 0 ==>
      (st == Critical <==> (timeLeft as real) / (totalTime as real) <= 0.25)
    ensures totalTime > 0 ==>
      (st == Warning <==> 0.25 < (timeLeft as real) / (totalTime as real) <= 0.5)
    ensures totalTime > 0 ==>
      (st == Normal <==> 0.5 < (timeLeft as real) / (totalTime as real))
    ensures totalTime == 0 ==> st == Normal
  {
    if totalTime == 0 then Normal
    else if 4 * timeLeft <= totalTime then Critical
    else if 2 * timeLeft <= totalTime then Warning
    else Normal
  }

  /** With the total fixed, less time left never makes the state less urgent. */
  lemma ClassifyMonotone(later: nat, earlier: nat, totalTime: nat)
    requires later <= earlier
    ensures Urgency(Classify(later, totalTime)) >= Urgency(Classify(earlier, totalTime))
  {
  }

  /** The countdown pulses exactly when the state is critical and the timer runs. */
  function ShouldPulse(timeLeft: nat, totalTime: nat, isActive: bool): (pulse: bool)
    ensures pulse <==> isActive && totalTime > 0 && 4 * timeLeft <= totalTime
  {
    Classify(timeLeft, totalTime) == Critical && isActive
  }

  /** The label under the countdown. */
  function StatusLabel(isActive: bool): (text: string)
    ensures text == "ATIVO" <==> isActive
    ensures text == "PAUSADO" <==> !isActive
  {
    if isActive then "ATIVO" else "PAUSADO"
  }

  /** The seconds of a minute, zero-padded to two digits. */
  function TwoDigits(secs: nat): (s: string)
    requires secs < 60
    ensures |s| == 2 && AllDigits(s) && DigitsValue(s) == secs
  {
    NatToStringRoundTrip(secs);
    if secs < 10 then "0" + NatToString(secs) else NatToString(secs)
  }

  /** The remaining time as "m:ss": a numeral, a colon and two digits. */
  function FormatTime(seconds: nat): (text: string)
    ensures |text| >= 4 && text[|text| - 3] == ':'
    ensures AllDigits(text[..|text| - 3]) && AllDigits(text[|text| - 2..])
  {
    var m := NatToString(seconds / 60);
    var ss := TwoDigits(seconds % 60);
    var text := m + ":" + ss;
    assert text[..|text| - 3] == m && text[|text| - 2..] == ss;
    text
  }

  /** Reads an "m:ss" text back as a number of seconds. */
  function ReadTime(t: string): nat
    requires |t| >= 4 && AllDigits(t[..|t| - 3]) && AllDigits(t[|t| - 2..])
  {
    DigitsValue(t[..|t| - 3]) * 60 + DigitsValue(t[|t| - 2..])
  }

  /**
   * The text is the minute numeral, a colon and two digits below 60, and
   * reading it back gives the original count.
   */
  lemma FormatTimeMeaning(seconds: nat)
    ensures FormatTime(seconds)[..|FormatTime(seconds)| - 3] == NatToString(seconds / 60)
    ensures DigitsValue(FormatTime(seconds)[|FormatTime(seconds)| - 2..]) == seconds % 60
    ensures ReadTime(FormatTime(seconds)) == seconds
  {
    var m := NatToString(seconds / 60);
    var ss := TwoDigits(seconds % 60);
    var t := FormatTime(seconds);
    assert t[..|t| - 3] == m;
    assert t[|t| - 2..] == ss;
    NatToStringRoundTrip(seconds / 60);
    assert ReadTime(t) == DigitsValue(m) * 60 + DigitsValue(ss);
  }

  /** Distinct counts are shown as distinct texts. */
  lemma FormatTimeInjective(a: nat, b: nat)
    requires FormatTime(a) == FormatTime(b)
    ensures a == b
  {
    FormatTimeMeaning(a);
    FormatTimeMeaning(b);
  }

  lemma FormatTimeExamples()
    ensures FormatTime(5) == "0:05"
    ensures FormatTime(30) == "0:30"
    ensures FormatTime(65) == "1:05"
  {
    assert NatToString(0) == "0";
    assert NatToString(5) == "5";
    assert NatToString(1) == "1";
    assert NatToString(3) == "3" && NatToString(30) == NatToString(3) + "0";
  }
}
