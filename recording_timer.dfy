/** The recording timer's display text (components/RecordingTimer.tsx):
    whole minutes and seconds of the elapsed milliseconds, each padded to
    two digits. */
module RecordingTimer {
  import opened Wrappers
  import opened Decimal

  /** The value the display holds before the first duration arrives. */
  const InitialDisplayTime: string := "00:00"

  /** `formatTime(milliseconds)`: "MM:SS" with both fields padded to at least
      two digits; Math.floor on a non-negative count is integer division. */
  function FormatTime(milliseconds: nat): (r: string)
    ensures |r| >= 5 && r[|r| - 3] == ':'
    ensures AllDigits(r[..|r| - 3]) && AllDigits(r[|r| - 2..])
  {
    var totalSeconds := milliseconds / 1000;
    var minutes := totalSeconds / 60;
    var seconds := totalSeconds % 60;
    NatToStringLength(seconds);
    PadStart2(NatToString(minutes)) + ":" + PadStart2(NatToString(seconds))
  }

  /** The display reads back as the whole minutes and the remaining seconds,
      so 60 * minutes + seconds is the number of whole seconds elapsed and
      the seconds field is below 60. */
  lemma FormatTimeRoundTrip(milliseconds: nat)
    ensures ParseClock(FormatTime(milliseconds))
         == Some((milliseconds / 1000 / 60, milliseconds / 1000 % 60))
    ensures var fields := ParseClock(FormatTime(milliseconds)).value;
            60 * fields.0 + fields.1 == milliseconds / 1000 && fields.1 < 60
  {
    var minutes := milliseconds / 1000 / 60;
    var mm := PadStart2(NatToString(minutes));
    NatToStringRoundTrip(minutes);
    PadStart2Value(NatToString(minutes));
    ClockRoundTrip(mm, milliseconds / 1000 % 60);
  }

  /** The display is exactly five characters long precisely while fewer than
      100 minutes have elapsed. */
  lemma FormatTimeLength(milliseconds: nat)
    ensures |FormatTime(milliseconds)| == 5 <==> milliseconds < 6000000
  {
    NatToStringLength(milliseconds / 1000 / 60);
    NatToStringLength(milliseconds / 1000 % 60);
  }

  /** Every duration under one second shows as the initial display value, and
      no other duration does. */
  lemma FormatTimeInitial(milliseconds: nat)
    ensures FormatTime(milliseconds) == InitialDisplayTime <==> milliseconds < 1000
  {
    if milliseconds < 1000 {
      assert milliseconds / 1000 == 0;
      assert NatToString(0) == "0";
      assert PadStart2("0") == "00";
    } else {
      FormatTimeRoundTrip(milliseconds);
      ZeroClock();
    }
  }

  lemma ZeroClock()
    ensures ParseClock(InitialDisplayTime) == Some((0, 0))
  {
    ParseClockOf("00", "00");
    assert DigitsValue("00") == 0 by {
      assert "00"[..1] == "0";
      assert "0"[..0] == "";
    }
  }
}
