/**
 * The hourly forecast normaliser (`processForecastData`) and the burn-hour
 * filter (`filterBurnPeriods`) of the burn-window planner.
 */
module Forecast {
  import opened Wrappers
  import opened JsText
  import Seqs

  /** One period of the weather service's hourly forecast. The local calendar
      fields are what `new Date(startTime)` reports in the browser's time zone;
      they are inputs here. */
  datatype ForecastPeriod = ForecastPeriod(
    startTime: string,
    localYear: int,         // getFullYear()
    localMonthIndex: nat,   // getMonth(), 0 for January
    localDate: nat,         // getDate()
    localHours: nat,        // getHours()
    temperature: int,
    relativeHumidity: int,
    windSpeed: string,      // such as "10 mph"
    windDirection: string)  // a compass point such as "NNE"

  /** The ranges a `Date` object keeps its local fields in. */
  predicate IsCalendarTime(p: ForecastPeriod)
  {
    p.localMonthIndex < 12 && 1 <= p.localDate <= 31 && p.localHours < 24
  }

  /** The flat record the rest of the planner works on. `windSpeed` is `None`
      when `parseInt` gives NaN. */
  datatype HourRecord = HourRecord(
    date: string,           // "YYYY-MM-DD"
    hour: string,           // "HH00"
    temp: int,
    rh: int,
    windSpeed: Option<int>,
    windDir: string,
    startTime: string)

  /** `String(n).padStart(2, '0')`. */
  function Pad2(n: nat): string
  {
    PadStart(NatToString(n), 2, '0')
  }

  function HourLabel(hours: nat): string
  {
    Pad2(hours) + "00"
  }

  function DateLabel(year: int, month: nat, day: nat): string
  {
    IntToString(year) + "-" + Pad2(month) + "-" + Pad2(day)
  }

  /** The record `processForecastData` builds from one period. */
  function ToRecord(p: ForecastPeriod): HourRecord
  {
    HourRecord(
      date := DateLabel(p.localYear, p.localMonthIndex + 1, p.localDate),
      hour := HourLabel(p.localHours),
      temp := p.temperature,
      rh := p.relativeHumidity,
      windSpeed := ParseInt(p.windSpeed),
      windDir := p.windDirection,
      startTime := p.startTime)
  }

  function ProcessForecastData(periods: seq<ForecastPeriod>): (records: seq<HourRecord>)
    ensures |records| == |periods|
    ensures forall i :: 0 <= i < |periods| ==>
      records[i] == ToRecord(periods[i]) &&
      records[i].startTime == periods[i].startTime &&
      records[i].temp == periods[i].temperature &&
      records[i].rh == periods[i].relativeHumidity &&
      records[i].windDir == periods[i].windDirection
  {
    seq(|periods|, i requires 0 <= i < |periods| => ToRecord(periods[i]))
  }

  /** `parseInt(hour)` lies in 800..2000. */
  predicate InBurnWindow(r: HourRecord)
  {
    var h := ParseInt(r.hour);
    h.Some? && 800 <= h.value <= 2000
  }

  function FilterBurnPeriods(records: seq<HourRecord>): (kept: seq<HourRecord>)
    ensures Seqs.IsSubsequence(kept, records)
    ensures forall r :: multiset(kept)[r] == if InBurnWindow(r) then multiset(records)[r] else 0
    ensures forall r :: r in kept <==> r in records && InBurnWindow(r)
  {
    Seqs.Filter(records, InBurnWindow)
  }

  /** Below 100 the padded form is two decimal digits denoting the number. */
  lemma Pad2Decodes(n: nat)
    requires n < 100
    ensures |Pad2(n)| == 2 && AllDigits(Pad2(n), 10)
    ensures DigitsValue(Pad2(n), 10) == n
  {
    var s := NatToString(n);
    if n < 10 {
      assert s == [DigitChar(n)];
      var p := Pad2(n);
      assert p == ['0'] + s;
      assert p[..1] == ['0'];
      assert DigitsValue(p[..1][..0], 10) == 0;
    } else {
      assert s == NatToString(n / 10) + [DigitChar(n % 10)];
      assert |NatToString(n / 10)| == 1;
    }
  }

  lemma AppendZeroDigit(a: string)
    requires AllDigits(a, 10)
    ensures AllDigits(a + "0", 10) && DigitsValue(a + "0", 10) == 10 * DigitsValue(a, 10)
  {
    assert (a + "0")[..|a|] == a;
  }

  /** The hour label is four decimal digits, the hour zero-padded and "00",
      denoting 100 times the hour. */
  lemma HourLabelDigits(h: nat)
    requires h < 100
    ensures |HourLabel(h)| == 4 && AllDigits(HourLabel(h), 10)
    ensures HourLabel(h)[..2] == Pad2(h) && HourLabel(h)[2..] == "00"
    ensures DigitsValue(HourLabel(h)[..2], 10) == h
    ensures DigitsValue(HourLabel(h), 10) == 100 * h
  {
    Pad2Decodes(h);
    var p := Pad2(h);
    AppendZeroDigit(p);
    AppendZeroDigit(p + "0");
    var s := HourLabel(h);
    assert s == p + "0" + "0";
    assert s[..2] == p;
  }

  /** `t` is an "HH00" label whose first two digits denote the hour `h`. */
  predicate IsHourText(t: string, h: nat)
  {
    |t| == 4 && AllDigits(t, 10) && AllDigits(t[..2], 10) &&
    t[2..] == "00" && DigitsValue(t[..2], 10) == h
  }

  /** `parseInt` reads the hour label back as 100 times the hour. */
  lemma HourLabelDecodes(h: nat)
    requires h < 100
    ensures IsHourText(HourLabel(h), h)
    ensures HourLabel(h)[..2] == Pad2(h)
    ensures ParseInt(HourLabel(h)) == Some(100 * h)
  {
    HourLabelDigits(h);
    var s := HourLabel(h);
    ParseIntOfDigits(s, []);
    assert s + [] == s;
  }

  /** The hour label spelled out: tens digit, units digit, "00". */
  lemma HourLabelChars(h: nat)
    requires h < 100
    ensures HourLabel(h) == [DigitChar(h / 10), DigitChar(h % 10), '0', '0']
  {
    if h < 10 {
      assert NatToString(h) == [DigitChar(h)];
      assert Pad2(h) == ['0', DigitChar(h)];
    } else {
      assert NatToString(h / 10) == [DigitChar(h / 10)];
      assert NatToString(h) == [DigitChar(h / 10), DigitChar(h % 10)];
    }
  }

  lemma NatToStringStep(n: nat)
    requires n >= 10
    ensures |NatToString(n)| == |NatToString(n / 10)| + 1
  {
  }

  lemma FourDigitYear(year: int)
    requires 1000 <= year <= 9999
    ensures |IntToString(year)| == 4
  {
    var a := year / 10;
    var b := a / 10;
    var c := b / 10;
    assert 100 <= a <= 999 && 10 <= b <= 99 && 1 <= c <= 9;
    NatToStringStep(year);
    NatToStringStep(a);
    NatToStringStep(b);
  }

  /** Where three parts sit once joined by two dashes. */
  lemma DashJoinParts(y: string, m: string, d: string)
    requires |m| == 2 && |d| == 2
    ensures var l := y + "-" + m + "-" + d;
      |l| == |y| + 6 &&
      l[|l| - 2..] == d && l[|l| - 3] == '-' &&
      l[|l| - 5..|l| - 3] == m && l[|l| - 6] == '-' &&
      l[..|l| - 6] == y
  {
    var t := "-" + m + "-" + d;
    assert |t| == 6 && t[0] == '-' && t[3] == '-' && t[1..3] == m && t[4..] == d;
    var l := y + "-" + m + "-" + d;
    assert l == y + t;
    assert l[..|y|] == y && l[|y|..] == t;
  }

  /** Where the year, month and day sit in a date label. */
  lemma DateLabelParts(year: int, month: nat, day: nat)
    requires month < 100 && day < 100
    ensures var l := DateLabel(year, month, day);
      |l| == |IntToString(year)| + 6 &&
      l[|l| - 2..] == Pad2(day) && l[|l| - 3] == '-' &&
      l[|l| - 5..|l| - 3] == Pad2(month) && l[|l| - 6] == '-' &&
      l[..|l| - 6] == IntToString(year)
  {
    Pad2Decodes(month);
    Pad2Decodes(day);
    DashJoinParts(IntToString(year), Pad2(month), Pad2(day));
  }

  /** Whatever the year, a date label holds a dash right after the year, so
      it is neither an array index nor the name of an inherited property. */
  lemma DateLabelHasDash(year: int, month: nat, day: nat)
    ensures '-' in DateLabel(year, month, day)
  {
    DashJoinHasDash(IntToString(year), Pad2(month), Pad2(day));
  }

  lemma DashJoinHasDash(y: string, m: string, d: string)
    ensures '-' in y + "-" + m + "-" + d
  {
    var l := y + "-" + m + "-" + d;
    assert l[|y|] == '-';
  }

  /** Every date the normaliser writes holds a dash. */
  lemma ProcessedDatesHaveDash(periods: seq<ForecastPeriod>)
    ensures forall r :: r in ProcessForecastData(periods) ==> '-' in r.date
  {
    var records := ProcessForecastData(periods);
    forall r | r in records ensures '-' in r.date {
      var k :| 0 <= k < |records| && records[k] == r;
      var p := periods[k];
      DateLabelHasDash(p.localYear, p.localMonthIndex + 1, p.localDate);
    }
  }

  /** `d` is "YYYY-MM-DD" and its three parts denote the given day. */
  predicate IsDateText(d: string, year: int, month: nat, day: nat)
  {
    |d| == 10 && d[4] == '-' && d[7] == '-' &&
    AllDigits(d[..4], 10) && AllDigits(d[5..7], 10) && AllDigits(d[8..], 10) &&
    DigitsValue(d[..4], 10) == year &&
    DigitsValue(d[5..7], 10) == month &&
    DigitsValue(d[8..], 10) == day
  }

  /** A date label with a four-digit year is "YYYY-MM-DD", and each part
      decodes to the year, month and day it was built from. */
  lemma DateLabelDecodes(year: int, month: nat, day: nat)
    requires 1000 <= year <= 9999 && month < 100 && day < 100
    ensures IsDateText(DateLabel(year, month, day), year, month, day)
  {
    FourDigitYear(year);
    DateLabelParts(year, month, day);
    Pad2Decodes(month);
    Pad2Decodes(day);
    assert IntToString(year) == NatToString(year);
  }

  /** Distinct calendar days get distinct labels, so the grid never merges
      two days into one column. */
  lemma DateLabelInjective(y1: int, m1: nat, d1: nat, y2: int, m2: nat, d2: nat)
    requires m1 < 100 && d1 < 100 && m2 < 100 && d2 < 100
    requires DateLabel(y1, m1, d1) == DateLabel(y2, m2, d2)
    ensures y1 == y2 && m1 == m2 && d1 == d2
  {
    DateLabelParts(y1, m1, d1);
    DateLabelParts(y2, m2, d2);
    Pad2Decodes(m1); Pad2Decodes(d1); Pad2Decodes(m2); Pad2Decodes(d2);
    IntToStringInjective(y1, y2);
  }

  /** The normaliser's hour label reads back as the local hour of the
      period, and `parseInt` reads it as 100 times that hour. */
  lemma ToRecordHour(p: ForecastPeriod)
    requires IsCalendarTime(p)
    ensures IsHourText(ToRecord(p).hour, p.localHours)
    ensures ParseInt(ToRecord(p).hour) == Some(100 * p.localHours)
  {
    HourLabelDecodes(p.localHours);
  }

  /** With a four-digit year the normaliser's date label is "YYYY-MM-DD" and
      reads back as the local calendar day, the month counted from 1. */
  lemma ToRecordDate(p: ForecastPeriod)
    requires IsCalendarTime(p) && 1000 <= p.localYear <= 9999
    ensures IsDateText(ToRecord(p).date, p.localYear, p.localMonthIndex + 1, p.localDate)
  {
    DateLabelDecodes(p.localYear, p.localMonthIndex + 1, p.localDate);
  }

  /** A wind speed written "<n> mph" is read as n. */
  lemma ToRecordWindSpeed(p: ForecastPeriod, n: int)
    requires p.windSpeed == IntToString(n) + " mph"
    ensures ToRecord(p).windSpeed == Some(n)
  {
    ParseIntOfIntToString(n, " mph");
  }

  /** A normalised period survives the filter exactly when its local hour is
      between 08 and 20 inclusive. */
  lemma BurnWindowIsHours8To20(p: ForecastPeriod)
    requires IsCalendarTime(p)
    ensures InBurnWindow(ToRecord(p)) <==> 8 <= p.localHours <= 20
  {
    HourLabelDecodes(p.localHours);
  }
}
