/** The two text formatters of `src/i18n/utils/formatters.ts` that do not
    go through `Intl`: durations in minutes and lists of items. A locale is
    the plain string the caller passes; only "pt-BR" selects Portuguese. */
module Formatters {
  import opened Wrappers
  import opened Strings
  import ApiTypes

  const Portuguese: string := "pt-BR"

  /** JavaScript's `a % b`: the remainder takes the sign of the dividend. */
  function JsRem(a: int, b: int): (r: int)
    requires b > 0
    ensures a >= 0 ==> r == a % b
    ensures a < 0 ==> -b < r <= 0
  {
    if a >= 0 then a % b else -((-a) % b)
  }

  /** The minutes suffix: "min" in Portuguese, "m" otherwise. */
  function MinuteUnit(locale: string): string
  {
    if locale == Portuguese then "min" else "m"
  }

  /** `formatDuration(minutes, locale)`: hours are `Math.floor(minutes / 60)`
      (Dafny's `/` floors for a positive divisor), minutes the truncated
      remainder; a zero hours field or a zero minutes field is omitted. */
  function FormatDuration(minutes: int, locale: string): (s: string)
    ensures 0 <= minutes < 60 ==> s == NatToString(minutes) + MinuteUnit(locale)
    ensures minutes >= 60 && minutes % 60 == 0 ==> s == NatToString(minutes / 60) + "h"
    ensures minutes >= 60 && minutes % 60 != 0 ==>
              s == NatToString(minutes / 60) + "h " + NatToString(minutes % 60) + MinuteUnit(locale)
  {
    var hours := minutes / 60;
    var mins := JsRem(minutes, 60);
    if hours == 0 then IntToString(mins) + MinuteUnit(locale)
    else if mins == 0 then IntToString(hours) + "h"
    else IntToString(hours) + "h " + IntToString(mins) + MinuteUnit(locale)
  }

  /** The parser reads "<h>h" back as `h` hours. */
  lemma ParseWholeHours(h: nat)
    ensures ApiTypes.ParseDurationToMinutes(Some(NatToString(h) + "h")) == 60 * h
  {
    var t := NatToString(h);
    ApiTypes.HoursAndMinutes("", t, "", "", "");
    assert "" + t + "h" + "" + "" + "" == t + "h";
  }

  lemma HoursMinutesShape(t: string, u: string, unit: string)
    ensures "" + t + "h" + " " + u + unit == t + "h " + u + unit
  {
    assert "h" + " " == "h ";
  }

  /** The parser reads "<t>h <u><unit>" back as `t` hours and `u` minutes. */
  lemma ParseHoursMinutes(t: string, u: string, unit: string)
    requires |t| > 0 && AllDigits(t) && AllDigits(u)
    requires |unit| > 0 && unit[0] == 'm'
    ensures ApiTypes.ParseDurationToMinutes(Some(t + "h " + u + unit)) == 60 * DigitsValue(t) + DigitsValue(u)
  {
    assert !IsDigit(unit[0]) && !IsSpace(unit[0]);
    ApiTypes.HoursAndMinutes("", t, " ", u, unit);
    HoursMinutesShape(t, u, unit);
  }

  /** The duration parser of the API layer reads back every whole number of
      hours, with or without minutes, in either locale. */
  lemma FormatDurationRoundTrip(minutes: int, locale: string)
    requires minutes >= 60
    ensures ApiTypes.ParseDurationToMinutes(Some(FormatDuration(minutes, locale))) == minutes
  {
    var hours := minutes / 60;
    var mins := minutes % 60;
    assert minutes == 60 * hours + mins;
    if mins == 0 {
      ParseWholeHours(hours);
    } else {
      ParseHoursMinutes(NatToString(hours), NatToString(mins), MinuteUnit(locale));
    }
  }

  /** A duration under an hour is written without an "h", and the parser,
      which only reads texts with an hours field, makes it 0 minutes. */
  lemma FormatDurationUnderAnHourLost(minutes: int, locale: string)
    requires 0 <= minutes < 60
    ensures ApiTypes.ParseDurationToMinutes(Some(FormatDuration(minutes, locale))) == 0
  {
    var m := NatToString(minutes);
    var unit := MinuteUnit(locale);
    var s := FormatDuration(minutes, locale);
    assert s == m + unit;
    forall t | 0 <= t < |s|
      ensures s[t] != 'h'
    {
      if t < |m| {
        assert s[t] == m[t] && IsDigit(m[t]);
      } else {
        assert s[t] == unit[t - |m|];
      }
    }
    ApiTypes.NoHoursGivesZero(s);
  }

  /** The connector between the last two items. */
  function LastConnector(locale: string, n: nat): string
  {
    if locale == Portuguese then " e "
    else if n == 2 then " and "
    else ", and "
  }

  /** The list text `formatList` builds for `items`, without touching them. */
  function ListText(items: seq<string>, locale: string): (s: string)
    ensures |items| == 0 ==> s == ""
    ensures |items| == 1 ==> s == items[0]
    ensures |items| >= 2 ==>
              s == Join(items[..|items| - 1], ", ") + LastConnector(locale, |items|) + items[|items| - 1]
  {
    if |items| == 0 then ""
    else if |items| == 1 then items[0]
    else if |items| == 2 then
      assert Join(items[1..], LastConnector(locale, 2)) == items[1];
      Join(items, LastConnector(locale, 2))
    else Join(items[..|items| - 1], ", ") + LastConnector(locale, |items|) + items[|items| - 1]
  }

  /** Every item appears in the list text. */
  lemma ListTextMentionsAll(items: seq<string>, locale: string, i: nat)
    requires i < |items|
    ensures Contains(ListText(items, locale), items[i])
  {
    var n := |items|;
    var s := ListText(items, locale);
    if n == 1 {
      ContainsAt(s, items[0], 0);
    } else {
      var head := Join(items[..n - 1], ", ");
      var conn := LastConnector(locale, n);
      assert s == head + (conn + items[n - 1]);
      if i < n - 1 {
        JoinOccurs(items[..n - 1], ", ", i);
        var k :| OccursAt(head, items[..n - 1][i], k);
        OccursInLeft(head, conn + items[n - 1], items[i], k);
        ContainsAt(s, items[i], k);
      } else {
        assert OccursAt(s, items[i], |head| + |conn|);
        ContainsAt(s, items[i], |head| + |conn|);
      }
    }
  }

  /** The JavaScript array a caller hands to `formatList`. */
  class StringList {
    var items: seq<string>

    constructor(items: seq<string>)
      ensures this.items == items
    {
      this.items := items;
    }

    /** `items.pop()` on a non-empty array. */
    method Pop() returns (last: string)
      requires |items| > 0
      modifies this
      ensures last == old(items)[|old(items)| - 1]
      ensures items == old(items)[..|old(items)| - 1]
    {
      last := items[|items| - 1];
      items := items[..|items| - 1];
    }
  }

  /** `formatList(items, locale)` as written: the text is the list text of
      the items it was given, and with three items or more the caller's
      array has lost its last element. */
  method FormatList(list: StringList, locale: string) returns (s: string)
    modifies list
    ensures s == ListText(old(list.items), locale)
    ensures |old(list.items)| >= 3 ==> list.items == old(list.items)[..|old(list.items)| - 1]
    ensures |old(list.items)| < 3 ==> list.items == old(list.items)
  {
    var n := |list.items|;
    if n == 0 {
      return "";
    }
    if n == 1 {
      return list.items[0];
    }
    if n == 2 {
      return Join(list.items, LastConnector(locale, 2));
    }
    var connector := LastConnector(locale, n);
    var last := list.Pop();
    s := Join(list.items, ", ") + connector + last;
  }

  /** Formatting the same three-city array twice gives two different texts:
      the second call sees only two cities. */
  method FormatListTwice() returns (first: string, second: string)
    ensures first == "Paris, Roma, and Lisboa"
    ensures second == "Paris and Roma"
  {
    var cities := ["Paris", "Roma", "Lisboa"];
    var list := new StringList(cities);
    first := FormatList(list, "en-US");
    assert cities[..2] == ["Paris", "Roma"];
    assert ["Paris", "Roma"][1..] == ["Roma"];
    assert Join(["Paris", "Roma"], ", ") == "Paris, Roma";
    assert list.items == ["Paris", "Roma"];
    second := FormatList(list, "en-US");
    assert Join(["Paris", "Roma"], " and ") == "Paris and Roma";
  }
}
