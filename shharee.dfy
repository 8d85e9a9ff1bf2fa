/**
 * shharee.py: the stripped-down script that keeps only `get_date_range`.
 * Its offset table is the console script's, but its end date is formatted
 * with `"%Y-m-%d"`: the month directive lost its `%`, so the end string
 * carries a literal `m` where the month belongs.
 */
module ShhareeScript {
  import opened Options
  import opened Calendar
  import opened IsoFormat
  import opened DateRanges
  import ShareScript

  /** The period tags `get_date_range` tests for explicitly. */
  predicate IsRecognised(periodName: string) {
    periodName == "last_week" || periodName == "last_4_weeks"
    || periodName == "last_3_months" || periodName == "last_6_months"
  }

  /** The `timedelta` each branch of `get_date_range` subtracts, in days. */
  function OffsetDays(periodName: string): (days: nat)
    ensures IsRecognised(periodName) || days == 7
  {
    if periodName == "last_week" then 7
    else if periodName == "last_4_weeks" then 4 * 7
    else if periodName == "last_3_months" then 90
    else if periodName == "last_6_months" then 180
    else 7
  }

  /** The offset table is the console script's, tag for tag. */
  lemma SameOffsetsAsShare(periodName: string)
    ensures OffsetDays(periodName) == ShareScript.OffsetDays(periodName)
    ensures IsRecognised(periodName) <==> ShareScript.IsRecognised(periodName)
  {
  }

  /**
   * The end string as the script formats it: the zero-padded year, the three
   * characters `-m-`, and the zero-padded day. Nine characters, never a
   * calendar date, and blind to the month.
   */
  function MalformedEnd(today: Date): (s: string)
    requires Valid(today)
    ensures |s| == 9 && s[4..7] == "-m-"
    ensures AllDigits(s[..4]) && DecimalValue(s[..4]) == today.year
    ensures AllDigits(s[7..]) && DecimalValue(s[7..]) == today.day
    ensures ParseIso(s) == None
  {
    var s := Pad4(today.year) + "-m-" + Pad2(today.day);
    assert s[..4] == Pad4(today.year) && s[7..] == Pad2(today.day);
    s
  }

  /** `get_date_range(period_name)` as written, with `datetime.now()` passed in as `today`. */
  function GetDateRange(periodName: string, today: Date): (r: DateRange)
    requires Valid(today) && Ordinal(today) > OffsetDays(periodName)
    ensures periodName == "last_week" ==> StartsDaysBefore(r.fromDate, today, 7)
    ensures periodName == "last_4_weeks" ==> StartsDaysBefore(r.fromDate, today, 28)
    ensures periodName == "last_3_months" ==> StartsDaysBefore(r.fromDate, today, 90)
    ensures periodName == "last_6_months" ==> StartsDaysBefore(r.fromDate, today, 180)
    ensures !IsRecognised(periodName) ==> StartsDaysBefore(r.fromDate, today, 7)
    ensures r.toDate == MalformedEnd(today)
  {
    var start := SubDays(today, OffsetDays(periodName));
    ParseFormatted(start);
    DateRange(FormatIso(start), MalformedEnd(today))
  }

  /** The start string is the console script's, correctly zero-padded `YYYY-MM-DD`. */
  lemma StartAsInShare(periodName: string, today: Date)
    requires Valid(today) && Ordinal(today) > OffsetDays(periodName)
    ensures GetDateRange(periodName, today).fromDate == ShareScript.GetDateRange(periodName, today).fromDate
    ensures |GetDateRange(periodName, today).fromDate| == 10
  {
  }

  /** An unknown tag is answered exactly as `"last_week"` is, without failing. */
  lemma UnrecognisedIsLastWeek(periodName: string, today: Date)
    requires !IsRecognised(periodName)
    requires Valid(today) && Ordinal(today) > 7
    ensures GetDateRange(periodName, today) == GetDateRange("last_week", today)
  {
  }

  /** Two days that differ only in their month get the same end string. */
  lemma EndIgnoresMonth(periodName: string, today: Date, other: Date)
    requires Valid(today) && Valid(other) && today.year == other.year && today.day == other.day
    requires Ordinal(today) > OffsetDays(periodName) && Ordinal(other) > OffsetDays(periodName)
    ensures GetDateRange(periodName, today).toDate == GetDateRange(periodName, other).toDate
  {
  }

  /**
   * The end string is never an ISO date: it is the ISO spelling of today with
   * the two month digits replaced by the single letter `m`.
   */
  lemma EndIsNotIso(periodName: string, today: Date)
    requires Valid(today) && Ordinal(today) > OffsetDays(periodName)
    ensures var end := GetDateRange(periodName, today).toDate;
      && ParseIso(end) == None
      && end[5] == 'm'
      && FormatIso(today) == end[..5] + Pad2(today.month) + end[6..]
  {
    MonthLetterForDigits(today);
  }

  lemma MonthLetterForDigits(today: Date)
    requires Valid(today)
    ensures var end := MalformedEnd(today);
      FormatIso(today) == end[..5] + Pad2(today.month) + end[6..]
  {
    var end := MalformedEnd(today);
    assert end[..5] == Pad4(today.year) + "-";
    assert end[6..] == "-" + Pad2(today.day);
  }

  /** On 2024-03-15 the script reports the range as ending on "2024-m-15". */
  lemma MalformedEndExample()
    ensures GetDateRange("last_week", Date(2024, 3, 15)).toDate == "2024-m-15"
    ensures ParseIso("2024-m-15") == None
  {
    assert MalformedEnd(Date(2024, 3, 15)) == "2024-m-15" by {
      assert Pad4(2024) == "2024";
      assert Pad2(15) == "15";
    }
  }

  /**
   * `get_date_range` as its docstring describes it, with the end formatted
   * `"%Y-%m-%d"`: both strings are ISO dates and the range is exactly the
   * tag's offset long.
   */
  function IntendedDateRange(periodName: string, today: Date): (r: DateRange)
    requires Valid(today) && Ordinal(today) > OffsetDays(periodName)
    ensures Spans(r, today, OffsetDays(periodName))
    ensures r.fromDate == GetDateRange(periodName, today).fromDate
  {
    RangeEndingOn(today, OffsetDays(periodName))
  }

}
