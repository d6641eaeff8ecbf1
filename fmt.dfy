/**
 * Text the chat page produces from the clock: the `local_time` stamp sent with a text query
 * (`fmtNow`) and the bounded log buffer (`log`).
 */
module Fmt {
  import opened JsText

  /** The local calendar fields `fmtNow` reads from a `Date`; `month0` is `getMonth()`, from 0. */
  datatype DateParts = DateParts(year: nat, month0: nat, day: nat, hours: nat, minutes: nat, seconds: nat)

  predicate ValidParts(d: DateParts) {
    && 1000 <= d.year <= 9999 && d.month0 < 12 && 1 <= d.day <= 31
    && d.hours < 24 && d.minutes < 60 && d.seconds < 60
  }

  /** `fmtNow()`: `YYYY-MM-DD HH:MM:SS`, the year unpadded and the other fields padded to two digits. */
  function FmtNow(d: DateParts): string {
    Day(d) + " " + Clock(d)
  }

  /** The `YYYY-MM-DD` part of `fmtNow()`. */
  function Day(d: DateParts): string {
    NatToString(d.year) + "-" + (Pad2(d.month0 + 1) + "-" + Pad2(d.day))
  }

  /** The `HH:MM:SS` part of `fmtNow()`. */
  function Clock(d: DateParts): string {
    Pad2(d.hours) + ":" + Pad2(d.minutes) + ":" + Pad2(d.seconds)
  }

  /** Two two-digit fields around a one-character separator, each reading back as its number. */
  lemma {:induction false} TwoFields(a: nat, sep: char, b: nat)
    requires a < 100 && b < 100
    ensures var s := Pad2(a) + [sep] + Pad2(b);
      && |s| == 5 && s[2] == sep
      && AllDigits(s[..2]) && DigitsValue(s[..2]) == a
      && AllDigits(s[3..]) && DigitsValue(s[3..]) == b
  {
    Pad2RoundTrip(a);
    Pad2RoundTrip(b);
    var s := Pad2(a) + [sep] + Pad2(b);
    assert s[..2] == Pad2(a);
    assert s[3..] == Pad2(b);
  }

  lemma {:induction false} ClockLayout(d: DateParts)
    requires ValidParts(d)
    ensures var s := Clock(d);
      && |s| == 8 && s[2] == ':' && s[5] == ':'
      && AllDigits(s[..2]) && DigitsValue(s[..2]) == d.hours
      && AllDigits(s[3..5]) && DigitsValue(s[3..5]) == d.minutes
      && AllDigits(s[6..]) && DigitsValue(s[6..]) == d.seconds
  {
    TwoFields(d.hours, ':', d.minutes);
    Pad2RoundTrip(d.seconds);
    var s, hm := Clock(d), Pad2(d.hours) + ":" + Pad2(d.minutes);
    assert s == hm + ":" + Pad2(d.seconds);
    assert s[..5] == hm;
    assert s[..2] == hm[..2];
    assert s[3..5] == hm[3..];
    assert s[6..] == Pad2(d.seconds);
  }

  lemma {:induction false} DayLayout(d: DateParts)
    requires ValidParts(d)
    ensures var s := Day(d);
      && |s| == 10 && s[4] == '-' && s[7] == '-'
      && AllDigits(s[..4]) && DigitsValue(s[..4]) == d.year
      && AllDigits(s[5..7]) && DigitsValue(s[5..7]) == d.month0 + 1
      && AllDigits(s[8..]) && DigitsValue(s[8..]) == d.day
  {
    NatToStringLength(d.year);
    TwoFields(d.month0 + 1, '-', d.day);
    DaySlices(NatToString(d.year), Pad2(d.month0 + 1) + "-" + Pad2(d.day));
  }

  /** Where the pieces of a 4-character year and a 5-character month and day land in the joined day. */
  lemma DaySlices(y: string, md: string)
    requires |y| == 4 && |md| == 5
    ensures var s := y + "-" + md;
      && |s| == 10 && s[4] == '-' && s[7] == md[2]
      && s[..4] == y && s[5..7] == md[..2] && s[8..] == md[3..]
  {
    var s := y + "-" + md;
    assert s[5..] == md;
  }

  /**
   * For a four-digit year the stamp is 19 characters with the separators at fixed places, and
   * each field reads back as the number it came from (the month as `month0 + 1`).
   */
  lemma {:induction false} FmtNowLayout(d: DateParts)
    requires ValidParts(d)
    ensures var s := FmtNow(d);
      && |s| == 19
      && s[4] == '-' && s[7] == '-' && s[10] == ' ' && s[13] == ':' && s[16] == ':'
      && AllDigits(s[..4]) && DigitsValue(s[..4]) == d.year
      && AllDigits(s[5..7]) && DigitsValue(s[5..7]) == d.month0 + 1
      && AllDigits(s[8..10]) && DigitsValue(s[8..10]) == d.day
      && AllDigits(s[11..13]) && DigitsValue(s[11..13]) == d.hours
      && AllDigits(s[14..16]) && DigitsValue(s[14..16]) == d.minutes
      && AllDigits(s[17..19]) && DigitsValue(s[17..19]) == d.seconds
  {
    DayLayout(d);
    ClockLayout(d);
    StampSlices(Day(d), Clock(d));
  }

  /** Where the pieces of a 10-character day and an 8-character clock land in the joined stamp. */
  lemma StampSlices(a: string, c: string)
    requires |a| == 10 && |c| == 8
    ensures var s := a + " " + c;
      && |s| == 19 && s[4] == a[4] && s[7] == a[7] && s[10] == ' ' && s[13] == c[2] && s[16] == c[5]
      && s[..4] == a[..4] && s[5..7] == a[5..7] && s[8..10] == a[8..]
      && s[11..13] == c[..2] && s[14..16] == c[3..5] && s[17..19] == c[6..]
  {
    var s := a + " " + c;
    assert s[..10] == a && s[11..] == c;
  }

  /** The number of lines the log buffer keeps. */
  const LogCap: nat := 250

  /** `log(line)` at a clock whose `toLocaleTimeString()` is `stamp`: the line is added with its stamp
      and only the last 250 lines are kept (`slice(-250)`). */
  function AppendLog(logs: seq<string>, stamp: string, line: string): seq<string> {
    var all := logs + ["[" + stamp + "] " + line];
    if |all| <= LogCap then all else all[|all| - LogCap..]
  }

  /**
   * The buffer never exceeds 250 lines, always ends with the new line, and keeps the most recent
   * earlier lines in order: it is a suffix of the old buffer followed by the new line.
   */
  lemma AppendLogKeepsNewest(logs: seq<string>, stamp: string, line: string)
    ensures var r := AppendLog(logs, stamp, line);
      && |r| == (if |logs| < LogCap then |logs| + 1 else LogCap)
      && r[|r| - 1] == "[" + stamp + "] " + line
      && r[..|r| - 1] == logs[|logs| - (|r| - 1)..]
  {
    var all := logs + ["[" + stamp + "] " + line];
    var r := AppendLog(logs, stamp, line);
    if |all| > LogCap {
      assert r[..|r| - 1] == logs[|logs| - (|r| - 1)..];
    } else {
      assert r[..|r| - 1] == logs;
    }
  }
}
