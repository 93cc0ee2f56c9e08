/** The two text helpers of the mock route service
    (lib/services/mockRouteService.ts): `formatDuration` and `addMinutes`. */
module RouteClock {
  import opened Wrappers
  import opened Text
  import TrainApi

  /** `formatDuration`: "{m}m" under an hour, "{h}h" on the hour, else
      "{h}h {m}m".  Hours are floored, minutes use the truncating `%`. */
  function FormatDuration(minutes: int): (r: string)
    ensures |r| >= 2
  {
    var hours := minutes / 60;
    var mins := JsRem(minutes, 60);
    if hours == 0 then IntToString(mins) + "m"
    else if mins == 0 then IntToString(hours) + "h"
    else IntToString(hours) + "h " + IntToString(mins) + "m"
  }

  /** `p` is a decimal number followed by the unit letter. */
  function UnitAmount(p: string, unit: char): (r: Option<nat>)
    ensures r.Some? ==> |p| >= 2 && p[|p| - 1] == unit
  {
    if |p| >= 2 && p[|p| - 1] == unit && AllDigits(p[..|p| - 1]) then Some(DigitsValue(p[..|p| - 1]))
    else None
  }

  /** Reads a duration text back into minutes: the inverse of
      `FormatDuration` on non-negative durations. */
  function ParseDuration(s: string): Option<int> {
    var parts := Split(s, ' ');
    if |parts| == 1 then
      match UnitAmount(parts[0], 'm')
      case Some(m) => Some(m)
      case None =>
        match UnitAmount(parts[0], 'h')
        case Some(h) => Some(h * 60)
        case None => None
    else if |parts| == 2 then
      match (UnitAmount(parts[0], 'h'), UnitAmount(parts[1], 'm'))
      case (Some(h), Some(m)) => Some(h * 60 + m)
      case _ => None
    else None
  }

  lemma UnitAmountOf(n: nat, unit: char)
    requires !IsDigit(unit) && unit != ' '
    ensures UnitAmount(NatToString(n) + [unit], unit) == Some(n)
    ensures ' ' !in NatToString(n) + [unit]
  {
    var p := NatToString(n) + [unit];
    assert p[..|p| - 1] == NatToString(n);
    NatToStringRoundTrip(n);
    assert forall i :: 0 <= i < |p| ==> p[i] != ' ' by {
      forall i | 0 <= i < |p| ensures p[i] != ' ' {
        if i < |p| - 1 { assert p[i] == NatToString(n)[i] && IsDigit(p[i]); }
      }
    }
  }

  lemma ParseMinutesText(m: nat)
    ensures ParseDuration(NatToString(m) + "m") == Some(m)
  {
    UnitAmountOf(m, 'm');
    SplitNoSep(NatToString(m) + "m", ' ');
  }

  lemma ParseHoursText(h: nat)
    ensures ParseDuration(NatToString(h) + "h") == Some(h * 60)
  {
    var s := NatToString(h) + "h";
    UnitAmountOf(h, 'h');
    SplitNoSep(s, ' ');
    assert UnitAmount(s, 'm') == None;
  }

  /** Two space-separated parts "{h}h" and "{m}m" read as `h * 60 + m`. */
  lemma ParseTwoParts(s: string, a: string, b: string, h: nat, m: nat)
    requires Split(s, ' ') == [a, b]
    requires UnitAmount(a, 'h') == Some(h) && UnitAmount(b, 'm') == Some(m)
    ensures ParseDuration(s) == Some(h * 60 + m)
  {
  }

  lemma ParseHoursMinutesText(h: nat, m: nat)
    ensures ParseDuration(NatToString(h) + "h " + NatToString(m) + "m") == Some(h * 60 + m)
  {
    var a, b := NatToString(h) + "h", NatToString(m) + "m";
    var s := NatToString(h) + "h " + NatToString(m) + "m";
    UnitAmountOf(h, 'h');
    UnitAmountOf(m, 'm');
    assert s == a + [' '] + b;
    SplitFirst(a, ' ', b);
    SplitNoSep(b, ' ');
    ParseTwoParts(s, a, b, h, m);
  }

  /** A rendered duration reads back as the same number of minutes, so
      distinct non-negative durations never render alike. */
  lemma ParseFormatDuration(minutes: nat)
    ensures ParseDuration(FormatDuration(minutes)) == Some(minutes)
  {
    var hours, mins := minutes / 60, minutes % 60;
    FormatDurationOfNat(minutes);
    if hours == 0 {
      ParseMinutesText(mins);
    } else if mins == 0 {
      ParseHoursText(hours);
    } else {
      ParseHoursMinutesText(hours, mins);
    }
  }

  lemma FormatDurationExamples()
    ensures FormatDuration(0) == "0m" && FormatDuration(45) == "45m" && FormatDuration(60) == "1h"
    ensures FormatDuration(90) == "1h 30m" && FormatDuration(1440) == "24h"
  {
    FormatDurationOfNat(0);
    FormatDurationOfNat(45);
    FormatDurationOfNat(60);
    FormatDurationOfNat(90);
    FormatDurationOfNat(1440);
  }

  /** The train leg's duration text always shows both parts, even a zero
      one, unlike `formatDuration`. */
  lemma TrainDurationTextExamples()
    ensures TrainApi.TrainDurationText(60) == "1h 0m" && FormatDuration(60) == "1h"
    ensures TrainApi.TrainDurationText(45) == "0h 45m" && FormatDuration(45) == "45m"
    ensures TrainApi.TrainDurationText(90) == "1h 30m" == FormatDuration(90)
  {
    FormatDurationExamples();
    TrainDurationTextOf(60);
    TrainDurationTextOf(45);
    TrainDurationTextOf(90);
    assert NatToString(45) == NatToString(4) + [DigitChar(5)];
    assert NatToString(30) == NatToString(3) + [DigitChar(0)];
  }

  /** For a non-negative duration the train text is "{h}h {m}m" with the
      whole hours and the remaining minutes. */
  lemma TrainDurationTextOf(t: nat)
    ensures TrainApi.TrainDurationText(t) == NatToString(t / 60) + "h " + NatToString(t % 60) + "m"
  {
    assert JsRem(t, 60) == t % 60;
  }

  lemma FormatDurationOfNat(minutes: nat)
    ensures var hours, mins := minutes / 60, minutes % 60;
      FormatDuration(minutes)
        == if hours == 0 then NatToString(mins) + "m"
           else if mins == 0 then NatToString(hours) + "h"
           else NatToString(hours) + "h " + NatToString(mins) + "m"
  {
    assert JsRem(minutes, 60) == minutes % 60;
  }

  /** The minute of the day of a minute count from some midnight. */
  function DayMinute(x: int): (r: nat)
    ensures r < 1440
  {
    x % 1440
  }

  /** The minutes since midnight that `const [hours, minutes] =
      time.split(':').map(Number)` denotes, or None when that is NaN. */
  function ClockValue(time: string): Option<int> {
    match HourMinute(time)
    case Some((h, m)) => Some(h * 60 + m)
    case None => None
  }

  /** `addMinutes`: the clock time `n` minutes after `time`, wrapping past
      midnight; the text "Inval" (the head of "Invalid Date") when `time`
      has no numeric hour and minute.  Date.setHours rolls over minute and
      hour overflow into the following days, so only the minute of the day
      survives. */
  function AddMinutes(time: string, n: int): (r: string)
    ensures ClockValue(time).None? ==> r == "Inval"
    ensures ClockValue(time).Some? ==> |r| == 5 && r[2] == ':'
  {
    match ClockValue(time)
    case Some(x) => ClockText(DayMinute(x + n))
    case None => "Inval"
  }


  /** Ten to midnight plus half an hour is twenty past midnight: minute
      1430 of the day plus 30 is minute 20 (see `AddMinutesOfClock`). */
  lemma PastMidnightExample()
    ensures ClockText(1430) == "23:50" && ClockText(DayMinute(1430 + 30)) == "00:20"
  {
  }

  /** A rendered clock time denotes its own minute of the day. */
  lemma ClockValueOfText(t: nat)
    requires t < 1440
    ensures ClockValue(ClockText(t)) == Some(t)
  {
    HourMinuteOfClockText(t);
    TrainApi.HoursAndMinutes(t);
  }

  lemma AddMinutesOfValue(time: string, x: int, n: int)
    requires ClockValue(time) == Some(x)
    ensures AddMinutes(time, n) == ClockText(DayMinute(x + n))
  {
  }

  /** On a clock text, adding minutes is addition modulo a day. */
  lemma AddMinutesOfClock(t: nat, n: int)
    requires t < 1440
    ensures AddMinutes(ClockText(t), n) == ClockText(DayMinute(t + n))
  {
    ClockValueOfText(t);
    AddMinutesOfValue(ClockText(t), t, n);
  }

  lemma DayMinuteTwice(x: int, a: int, b: int)
    ensures DayMinute(DayMinute(x + a) + b) == DayMinute(x + (a + b))
  {
    var q := (x + a) / 1440;
    assert x + a == q * 1440 + (x + a) % 1440;
  }

  lemma ClockTextTwice(x: int, a: int, b: int)
    ensures ClockText(DayMinute(DayMinute(x + a) + b)) == ClockText(DayMinute(x + (a + b)))
  {
    DayMinuteTwice(x, a, b);
  }

  lemma AddMinutesTwiceOfValue(time: string, x: int, a: int, b: int)
    requires ClockValue(time) == Some(x)
    ensures AddMinutes(AddMinutes(time, a), b) == AddMinutes(time, a + b)
  {
    AddMinutesOfValue(time, x, a);
    AddMinutesOfClock(DayMinute(x + a), b);
    AddMinutesOfValue(time, x, a + b);
    ClockTextTwice(x, a, b);
  }

  /** Two successive additions are one addition of the sum, for every
      input text: an invalid time stays invalid. */
  lemma AddMinutesTwice(time: string, a: int, b: int)
    ensures AddMinutes(AddMinutes(time, a), b) == AddMinutes(time, a + b)
  {
    match ClockValue(time)
    case Some(x) => AddMinutesTwiceOfValue(time, x, a, b);
    case None => HourMinuteNeedsColon("Inval");
  }

  lemma ElapsedModDay(start: int, n: int)
    requires 0 <= start < 1440
    ensures var later := DayMinute(start + n);
      (if later - start < 0 then later - start + 1440 else later - start) == n % 1440
  {
    var later := DayMinute(start + n);
    var q := (start + n) / 1440;
    assert start + n == q * 1440 + later;
    TrainApi.WithinOneDay(later - start);
    assert n == (q * 1440) + (later - start);
  }

  /** The duration from a parsed time to a rendered clock time. */
  lemma DurationToClockText(time: string, x: int, u: nat)
    requires ClockValue(time) == Some(x) && u < 1440
    ensures TrainApi.CalculateDuration(time, ClockText(u)) == Some(if u - x < 0 then u - x + 1440 else u - x)
  {
    var (h, m) := HourMinute(time).value;
    HourMinuteOfClockText(u);
    TrainApi.CalculateDurationOfParts(time, ClockText(u), (h, m), (u / 60, u % 60));
    TrainApi.HoursAndMinutes(u);
  }

  /** `calculateDuration` measures back what `addMinutes` added, modulo a
      day, from any time of day. */
  lemma DurationOfAddedMinutes(time: string, n: int)
    requires ClockValue(time).Some? && ClockValue(time).value < 1440
    ensures TrainApi.CalculateDuration(time, AddMinutes(time, n)) == Some(n % 1440)
  {
    var x := ClockValue(time).value;
    AddMinutesOfValue(time, x, n);
    DurationToClockText(time, x, DayMinute(x + n));
    ElapsedModDay(x, n);
  }
}
