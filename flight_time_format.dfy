/** The two display helpers that `BookingModal.tsx` and
    `FlightSegmentCard.tsx` each define, with the same text in both files:
    `formatTime` drops a trailing day offset such as "+1" from a time, and
    `formatDuration` writes minutes as "<h>h <mm>m". They are modelled once
    here and stand for both copies. */
module FlightTimeFormat {
  import opened Wrappers
  import opened Strings
  import ApiTypes
  import Formatters

  /** Where the run of digits that ends `s` starts. */
  function DigitSuffixStart(s: string): (k: nat)
    ensures k <= |s| && AllDigits(s[k..])
    ensures k == 0 || !IsDigit(s[k - 1])
  {
    if s != [] && IsDigit(s[|s| - 1]) then
      var k := DigitSuffixStart(s[..|s| - 1]);
      assert s[k..] == s[..|s| - 1][k..] + [s[|s| - 1]];
      k
    else |s|
  }

  /** `/\+\d+$/` matches `s` at `i`: a '+' followed by at least one digit
      and nothing else. */
  predicate OffsetAt(s: string, i: int)
  {
    0 <= i < |s| - 1 && s[i] == '+' && AllDigits(s[i + 1..])
  }

  /** The pattern can only match where the trailing digit run starts, just
      after a '+'. */
  lemma OffsetOnlyBeforeDigitSuffix(s: string)
    ensures forall i :: OffsetAt(s, i) ==>
              i == DigitSuffixStart(s) - 1 && 0 < DigitSuffixStart(s) < |s| && s[i] == '+'
  {
    var k := DigitSuffixStart(s);
    assert forall j :: k <= j < |s| ==> s[k..][j - k] == s[j];
    forall i | OffsetAt(s, i)
      ensures i == k - 1
    {
      assert forall j :: i + 1 <= j < |s| ==> s[i + 1..][j - i - 1] == s[j];
    }
  }

  lemma OffsetBeforeDigitSuffix(s: string, k: nat)
    requires k == DigitSuffixStart(s) && 0 < k < |s| && s[k - 1] == '+'
    ensures OffsetAt(s, k - 1)
  {
  }

  /** `time.replace(/\+\d+$/, "")`: the text before the trailing offset,
      or the whole text when there is none. */
  function FormatTime(time: string): (r: string)
    ensures forall i :: OffsetAt(time, i) ==> r == time[..i]
    ensures (forall i :: !OffsetAt(time, i)) ==> r == time
  {
    var k := DigitSuffixStart(time);
    OffsetOnlyBeforeDigitSuffix(time);
    if 0 < k < |time| && time[k - 1] == '+' then
      OffsetBeforeDigitSuffix(time, k);
      time[..k - 1]
    else time
  }

  lemma OffsetAtIn(s: string, i: nat)
    requires i + 1 < |s| && s[i] == '+' && AllDigits(s[i + 1..])
    ensures OffsetAt(s, i)
  {
  }

  /** The offset is removed once: "+1+2" becomes "+1", which in turn
      becomes "". */
  lemma FormatTimeNotIdempotent()
    ensures FormatTime("+1+2") == "+1"
    ensures FormatTime("+1") == ""
  {
    OffsetAtIn("+1+2", 2);
    assert "+1+2"[..2] == "+1";
    OffsetAtIn("+1", 0);
  }

  /** A time with no offset is shown as it is, and "23:40+1" as "23:40". */
  lemma FormatTimeExamples()
    ensures FormatTime("23:40") == "23:40"
    ensures FormatTime("23:40+1") == "23:40"
  {
    assert "23:40"[4] == '0';
    forall i | 0 <= i < 4
      ensures !OffsetAt("23:40", i)
    {
      assert "23:40"[i] != '+';
    }
    OffsetAtIn("23:40+1", 5);
    assert "23:40+1"[..5] == "23:40";
  }

  /** `t.padStart(2, "0")`. */
  function PadStart2(t: string): (r: string)
    ensures |t| >= 2 ==> r == t
    ensures |t| < 2 ==> |r| == 2 && r[2 - |t|..] == t && forall i :: 0 <= i < 2 - |t| ==> r[i] == '0'
  {
    if |t| >= 2 then t
    else if |t| == 1 then "0" + t
    else "00"
  }

  /** `formatDuration(minutes)`: `Math.floor(minutes / 60)` hours, then the
      JavaScript remainder padded to two characters. */
  function FormatDuration(minutes: int): (s: string)
  {
    var hours := minutes / 60;
    var mins := Formatters.JsRem(minutes, 60);
    IntToString(hours) + "h " + PadStart2(IntToString(mins)) + "m"
  }

  /** A leading zero does not change the value of a digit string. */
  lemma LeadingZero(t: string)
    requires |t| == 1 && AllDigits(t)
    ensures AllDigits("0" + t) && DigitsValue("0" + t) == DigitsValue(t)
  {
    assert ("0" + t)[..1] == "0";
    assert ("0" + t)[1] == t[0];
  }

  /** For a duration that is not negative, the minutes field is exactly two
      digits worth less than 60, and the hours field is the number of whole
      hours. */
  lemma FormatDurationFields(minutes: int)
    requires minutes >= 0
    ensures var mm := PadStart2(NatToString(minutes % 60));
            |mm| == 2 && AllDigits(mm) && DigitsValue(mm) == minutes % 60 < 60 &&
            FormatDuration(minutes) == NatToString(minutes / 60) + "h " + mm + "m"
  {
    var t := NatToString(minutes % 60);
    if |t| == 1 {
      LeadingZero(t);
    }
  }

  lemma HoursMinutesShape(h: string, mm: string)
    ensures "" + h + "h" + " " + mm + "m" == h + "h " + mm + "m"
  {
    assert "h" + " " == "h ";
  }

  /** The duration parser of the API layer reads every such text back as
      the minutes it was made from. */
  lemma FormatDurationRoundTrip(minutes: int)
    requires minutes >= 0
    ensures ApiTypes.ParseDurationToMinutes(Some(FormatDuration(minutes))) == minutes
  {
    FormatDurationFields(minutes);
    var h := NatToString(minutes / 60);
    var mm := PadStart2(NatToString(minutes % 60));
    assert minutes == 60 * (minutes / 60) + minutes % 60;
    assert !IsDigit('m') && !IsSpace('m') && IsSpace(' ');
    ApiTypes.HoursAndMinutes("", h, " ", mm, "m");
    HoursMinutesShape(h, mm);
  }
}
