/** The sequential logic of the screenshot driver: which monitor's bounds to
    capture, the name a day's screenshot is saved under, and the list of days
    to capture (`generate_date_range`). Keyboard automation, screen capture,
    and waiting are not part of this model. */
module StravaScreenshot {
  import opened Wrappers
  import opened Calendar
  import opened DateFormat

  /** What `screeninfo.get_monitors()` reports about one monitor. */
  datatype Monitor = Monitor(x: int, y: int, width: int, height: int)

  /** The capture region handed to the screen grabber. */
  datatype MonitorBounds = MonitorBounds(top: int, left: int, width: int, height: int)

  function BoundsOf(m: Monitor): MonitorBounds {
    MonitorBounds(m.y, m.x, m.width, m.height)
  }

  /** `get_second_monitor_bounds`. `monitors` is what `get_monitors()` returned,
      or `None` where it raised; the result is `None` where the function
      catches an exception (the enumeration failed, or there is no monitor
      and `monitors[0]` raises `IndexError`). */
  function SecondMonitorBounds(monitors: Option<seq<Monitor>>): (r: Option<MonitorBounds>)
    ensures r.None? <==> monitors.None? || |monitors.value| == 0
    ensures r.Some? ==>
      var chosen := monitors.value[if |monitors.value| >= 2 then 1 else 0];
      && r.value.top == chosen.y && r.value.left == chosen.x
      && r.value.width == chosen.width && r.value.height == chosen.height
  {
    match monitors
    case None => None
    case Some(ms) =>
      if |ms| >= 2 then Some(BoundsOf(ms[1]))
      else if |ms| == 1 then Some(BoundsOf(ms[0]))
      else None
  }

  /** The file name a day's screenshot is saved under,
      `strptime(date_str, '%Y-%m-%d').strftime('%Y%m%d') + '.png'`, or `None`
      where `strptime` raises (the screenshot routine then reports the error
      and saves nothing). */
  function ScreenshotFileName(dateText: string): (r: Option<string>)
    ensures r.Some? <==> ParseExtended(dateText).Some?
    ensures r.Some? ==> r.value == BasicForm(ParseExtended(dateText).value) + ".png"
  {
    match ParseExtended(dateText)
    case None => None
    case Some(d) => Some(BasicForm(d) + ".png")
  }

  /** For the strings the date range produces, the file name is the date's
      digits with the hyphens removed, followed by `.png`. */
  lemma ScreenshotFileNameDropsHyphens(d: Date)
    requires IsValid(d)
    ensures ScreenshotFileName(ExtendedForm(d)) == Some(WithoutHyphens(ExtendedForm(d)) + ".png")
  {
    ParseExtendedRoundTrip(d);
    BasicIsExtendedWithoutHyphens(d);
  }

  /** The calendar days from `first` to `last`, both included, one day apart. */
  function Days(first: Date, last: Date): (r: seq<Date>)
    requires IsValid(first) && IsValid(last)
    ensures |r| == if Before(last, first) then 0 else Ordinal(last) - Ordinal(first) + 1
    ensures forall k :: 0 <= k < |r| ==> IsValid(r[k])
    decreases Ordinal(last) - Ordinal(first)
  {
    OrdinalOrder(first, last);
    if Before(last, first) then []
    else if first == last then [first]
    else
      AtMostLastDate(last);
      NextOrdinal(first);
      var next := Next(first).value;
      OrdinalOrder(next, last);
      [first] + Days(next, last)
  }

  /** The k-th day of the range is the day k days after the first. */
  lemma {:induction false} DaysAt(first: Date, last: Date, k: int)
    requires IsValid(first) && IsValid(last)
    requires 0 <= k < |Days(first, last)|
    ensures Ordinal(Days(first, last)[k]) == Ordinal(first) + k
    decreases k
  {
    OrdinalOrder(first, last);
    if k > 0 {
      AtMostLastDate(last);
      NextOrdinal(first);
      var next := Next(first).value;
      assert Days(first, last) == [first] + Days(next, last);
      DaysAt(next, last, k - 1);
    }
  }

  /** The day `n` days after `first`, while not past `last`, is the `n`-th of
      the range. */
  lemma DaysAtOrdinal(first: Date, last: Date, d: Date, n: nat)
    requires IsValid(first) && IsValid(last) && IsValid(d)
    requires Ordinal(d) == Ordinal(first) + n && !Before(last, d)
    ensures n < |Days(first, last)| && Days(first, last)[n] == d
    ensures d == last || d != LastDate
  {
    OrdinalOrder(d, last);
    OrdinalOrder(first, last);
    DaysAt(first, last, n);
    OrdinalOrder(d, Days(first, last)[n]);
    AtMostLastDate(last);
  }

  /** A day past `last` that is `n` days after `first` leaves `n` days in the
      range. */
  lemma DaysPastEnd(first: Date, last: Date, d: Date, n: nat)
    requires IsValid(first) && IsValid(last) && IsValid(d)
    requires Ordinal(d) == Ordinal(first) + n && Before(last, d) && n <= |Days(first, last)|
    ensures n == |Days(first, last)|
  {
    OrdinalOrder(d, last);
    OrdinalOrder(first, last);
  }

  /** An empty range when the start is after the end. */
  lemma DaysEmpty(first: Date, last: Date)
    requires IsValid(first) && IsValid(last)
    ensures Days(first, last) == [] <==> Before(last, first)
  {
    OrdinalOrder(first, last);
  }

  /** Otherwise the range starts at `first` and ends at `last`. */
  lemma DaysEndpoints(first: Date, last: Date)
    requires IsValid(first) && IsValid(last) && !Before(last, first)
    ensures Days(first, last) != []
    ensures Days(first, last)[0] == first
    ensures Days(first, last)[|Days(first, last)| - 1] == last
  {
    OrdinalOrder(first, last);
    DaysAtOrdinal(first, last, first, 0);
    DaysAtOrdinal(first, last, last, Ordinal(last) - Ordinal(first));
  }

  /** Each day is the calendar successor of the one before it. */
  lemma DaysConsecutive(first: Date, last: Date, k: int)
    requires IsValid(first) && IsValid(last)
    requires 0 <= k < |Days(first, last)| - 1
    ensures Days(first, last)[k] != LastDate
    ensures Next(Days(first, last)[k]) == Some(Days(first, last)[k + 1])
  {
    var r := Days(first, last);
    DaysAt(first, last, k);
    DaysAt(first, last, k + 1);
    OrdinalOrder(r[k], r[k + 1]);
    AtMostLastDate(r[k + 1]);
    NextOrdinal(r[k]);
    OrdinalOrder(Next(r[k]).value, r[k + 1]);
  }

  /** The range is strictly increasing: no duplicates, no day out of order. */
  lemma DaysIncreasing(first: Date, last: Date, i: int, j: int)
    requires IsValid(first) && IsValid(last)
    requires 0 <= i < j < |Days(first, last)|
    ensures Before(Days(first, last)[i], Days(first, last)[j])
  {
    var r := Days(first, last);
    DaysAt(first, last, i);
    DaysAt(first, last, j);
    OrdinalOrder(r[i], r[j]);
  }

  /** A valid date is in the range exactly when it lies between `first` and `last`. */
  lemma DaysCover(first: Date, last: Date, d: Date)
    requires IsValid(first) && IsValid(last) && IsValid(d)
    ensures d in Days(first, last) <==> !Before(d, first) && !Before(last, d)
  {
    var r := Days(first, last);
    OrdinalOrder(first, d);
    OrdinalOrder(d, last);
    OrdinalOrder(first, last);
    if d in r {
      var k :| 0 <= k < |r| && r[k] == d;
      DaysAt(first, last, k);
    } else if !Before(d, first) && !Before(last, d) {
      var k := Ordinal(d) - Ordinal(first);
      DaysAt(first, last, k);
      OrdinalOrder(r[k], d);
      assert false;
    }
  }

  /** 29 February exists in 2024 and not in 2023, so only the first parses. */
  lemma LeapDayParsing()
    ensures ParseExtended("2024-02-29") == Some(Date(2024, 2, 29))
    ensures ParseExtended("2023-02-29") == None
  {
    var leapDay := Date(2024, 2, 29);
    assert ExtendedForm(leapDay) == "2024-02-29";
    ParseExtendedRoundTrip(leapDay);
    ParseExtendedOfShape("2023-02-29");
  }

  /** A range across 29 February of a leap year includes that day. */
  lemma LeapDayInRange()
    ensures Days(Date(2024, 2, 28), Date(2024, 3, 1)) == [Date(2024, 2, 28), Date(2024, 2, 29), Date(2024, 3, 1)]
  {
    var last := Date(2024, 3, 1);
    assert Days(last, last) == [last];
    assert Days(Date(2024, 2, 29), last) == [Date(2024, 2, 29)] + Days(last, last);
  }

  /** Each day rendered as `YYYY-MM-DD`. */
  function Rendered(days: seq<Date>): (r: seq<string>)
    requires forall k :: 0 <= k < |days| ==> IsValid(days[k])
    ensures |r| == |days|
    ensures forall k :: 0 <= k < |r| ==> r[k] == ExtendedForm(days[k])
  {
    seq(|days|, k requires 0 <= k < |days| => ExtendedForm(days[k]))
  }

  datatype RangeError =
    | InvalidDate(text: string)  // `strptime` raised `ValueError`
    | DateOverflow               // `current_date += timedelta(days=1)` past 9999-12-31 raised `OverflowError`

  /** `generate_date_range`: every day from the start to the end date, both
      included, as `YYYY-MM-DD`. The start is parsed first, so an invalid start
      is the error reported when both are invalid. When the end is the last
      representable day the loop still appends it and then fails computing
      the day after it. */
  method GenerateDateRange(startText: string, endText: string) returns (r: Result<seq<string>, RangeError>)
    ensures ParseExtended(startText).None? ==> r == Failure(InvalidDate(startText))
    ensures ParseExtended(startText).Some? && ParseExtended(endText).None? ==> r == Failure(InvalidDate(endText))
    ensures ParseExtended(startText).Some? && ParseExtended(endText).Some? ==>
      var first, last := ParseExtended(startText).value, ParseExtended(endText).value;
      r == if !Before(last, first) && last == LastDate then Failure(DateOverflow)
           else Success(Rendered(Days(first, last)))
  {
    var parsedStart := ParseExtended(startText);
    if parsedStart.None? {
      return Failure(InvalidDate(startText));
    }
    var parsedEnd := ParseExtended(endText);
    if parsedEnd.None? {
      return Failure(InvalidDate(endText));
    }
    var startDate, endDate := parsedStart.value, parsedEnd.value;
    ghost var all := Days(startDate, endDate);
    OrdinalOrder(startDate, endDate);

    var dateList: seq<string> := [];
    var current := startDate;
    while !Before(endDate, current)
      invariant IsValid(current)
      invariant Ordinal(current) == Ordinal(startDate) + |dateList|
      invariant |dateList| <= |all|
      invariant forall k :: 0 <= k < |dateList| ==> dateList[k] == ExtendedForm(all[k])
      decreases Ordinal(endDate) - Ordinal(current) + 1
    {
      DaysAtOrdinal(startDate, endDate, current, |dateList|);
      dateList := dateList + [ExtendedForm(current)];
      var next := Next(current);
      if next.None? {
        AtMostLastDate(endDate);
        return Failure(DateOverflow);
      }
      NextOrdinal(current);
      current := next.value;
    }
    DaysPastEnd(startDate, endDate, current, |dateList|);
    assert dateList == Rendered(all);
    return Success(dateList);
  }
}
