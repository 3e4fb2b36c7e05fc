/** Decimal text of non-negative integers as JavaScript produces it
    (`Number.prototype.toString`, `String.prototype.padStart(2, '0')`),
    and a reader for the "minutes:seconds" clock text both duration
    formatters produce. */
module Decimal {
  import opened Wrappers

  predicate IsDigit(c: char) { '0' <= c <= '9' }

  predicate AllDigits(s: string) { forall i :: 0 <= i < |s| ==> IsDigit(s[i]) }

  function DigitChar(d: nat): (c: char)
    requires d < 10
    ensures IsDigit(c) && (c == '0' <==> d == 0)
  {
    (('0' as int) + d) as char
  }

  function DigitValue(c: char): (d: nat)
    requires IsDigit(c)
    ensures d < 10
  {
    (c as int) - ('0' as int)
  }

  /** `n.toString()` for a non-negative integer: its decimal digits, with no
      leading zero unless the number itself is 0. */
  function NatToString(n: nat): (s: string)
    ensures 1 <= |s| && AllDigits(s)
    ensures s[0] == '0' <==> n == 0
  {
    if n < 10 then [DigitChar(n)] else NatToString(n / 10) + [DigitChar(n % 10)]
  }

  /** The number a string of decimal digits denotes. */
  function DigitsValue(s: string): nat
    requires AllDigits(s)
  {
    if s == [] then 0 else 10 * DigitsValue(s[..|s| - 1]) + DigitValue(s[|s| - 1])
  }

  /** Reading back the decimal text of n gives n. */
  lemma {:induction false} NatToStringRoundTrip(n: nat)
    ensures DigitsValue(NatToString(n)) == n
  {
    var s := NatToString(n);
    if n < 10 {
      assert s[..|s| - 1] == [];
    } else {
      NatToStringRoundTrip(n / 10);
      assert s[..|s| - 1] == NatToString(n / 10);
    }
  }

  /** One digit exactly below 10, at most two digits exactly below 100. */
  lemma {:induction false} NatToStringLength(n: nat)
    ensures |NatToString(n)| == 1 <==> n < 10
    ensures |NatToString(n)| <= 2 <==> n < 100
  {
    if n >= 10 {
      NatToStringLength(n / 10);
    }
  }

  /** `s.padStart(2, '0')`: zeros are added on the left until the text is
      two characters long; a longer text is returned as it is. */
  function PadStart2(s: string): (r: string)
    ensures |r| == if |s| >= 2 then |s| else 2
    ensures r[|r| - |s|..] == s
    ensures forall i :: 0 <= i < |r| - |s| ==> r[i] == '0'
  {
    if |s| >= 2 then s else if |s| == 1 then "0" + s else "00"
  }

  /** A leading zero does not change the value of a digit string. */
  lemma {:induction false} LeadingZeroValue(s: string)
    requires AllDigits(s)
    ensures AllDigits("0" + s) && DigitsValue("0" + s) == DigitsValue(s)
  {
    var t := "0" + s;
    if s == [] {
      assert t[..0] == [];
    } else {
      LeadingZeroValue(s[..|s| - 1]);
      assert t[..|t| - 1] == "0" + s[..|s| - 1];
    }
  }

  /** Padding a digit string keeps its value. */
  lemma PadStart2Value(s: string)
    requires AllDigits(s)
    ensures AllDigits(PadStart2(s)) && DigitsValue(PadStart2(s)) == DigitsValue(s)
  {
    if |s| == 1 {
      LeadingZeroValue(s);
    } else if |s| == 0 {
      LeadingZeroValue("0");
      LeadingZeroValue("");
    }
  }

  /** Position of the first ':' in s, or |s| when there is none. */
  function IndexOfColon(s: string): (k: nat)
    ensures k <= |s|
    ensures forall j :: 0 <= j < k ==> s[j] != ':'
    ensures k < |s| ==> s[k] == ':'
  {
    if s == [] || s[0] == ':' then 0 else 1 + IndexOfColon(s[1..])
  }

  /** Reads a clock text "M:SS" back into (minutes, seconds): one or more
      digits of minutes, a colon, then exactly two digits of seconds. */
  function ParseClock(text: string): (r: Option<(nat, nat)>)
    ensures r.Some? ==> 4 <= |text| && text[|text| - 3] == ':'
  {
    var k := IndexOfColon(text);
    if k == |text| then None
    else
      var minutes, seconds := text[..k], text[k + 1..];
      if 1 <= |minutes| && AllDigits(minutes) && |seconds| == 2 && AllDigits(seconds)
      then Some((DigitsValue(minutes), DigitsValue(seconds)))
      else None
  }

  /** A digit string, a colon and two digits parse back into their values. */
  lemma ParseClockOf(minutes: string, seconds: string)
    requires 1 <= |minutes| && AllDigits(minutes)
    requires |seconds| == 2 && AllDigits(seconds)
    ensures ParseClock(minutes + ":" + seconds) == Some((DigitsValue(minutes), DigitsValue(seconds)))
  {
    var t := minutes + ":" + seconds;
    var k := IndexOfColon(t);
    assert t[|minutes|] == ':';
    assert k == |minutes|;
    assert t[..k] == minutes;
    assert t[k + 1..] == seconds;
  }

  /** The clock text of m minutes and s seconds, with the seconds padded to
      two digits, reads back as (m, s); the minutes text is any digit string. */
  lemma ClockRoundTrip(minutesText: string, seconds: nat)
    requires 1 <= |minutesText| && AllDigits(minutesText)
    requires seconds < 60
    ensures ParseClock(minutesText + ":" + PadStart2(NatToString(seconds)))
         == Some((DigitsValue(minutesText), seconds))
  {
    var ss := NatToString(seconds);
    NatToStringLength(seconds);
    NatToStringRoundTrip(seconds);
    PadStart2Value(ss);
    ParseClockOf(minutesText, PadStart2(ss));
  }
}
