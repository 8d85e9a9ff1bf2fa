/**
 * The `(from_date, to_date)` pair every `get_date_range` returns: today,
 * and the date a fixed number of days earlier, both as `YYYY-MM-DD` strings.
 * The per-script modules choose the number of days from the period tag.
 */
module DateRanges {
  import opened Options
  import opened Calendar
  import opened IsoFormat

  datatype DateRange = DateRange(fromDate: string, toDate: string)

  /** `fromDate` reads back as the date exactly `days` day numbers before `today`. */
  predicate StartsDaysBefore(fromDate: string, today: Date, days: nat) {
    && Valid(today)
    && ParseIso(fromDate).Some?
    && Ordinal(ParseIso(fromDate).value) + days == Ordinal(today)
  }

  /**
   * `r` is the range of the `days` days ending on `today`: the end string
   * reads back as `today`, and the start string as the date `days` days earlier.
   */
  predicate Spans(r: DateRange, today: Date, days: nat) {
    && StartsDaysBefore(r.fromDate, today, days)
    && ParseIso(r.toDate) == Some(today)
  }

  /** `today - timedelta(days=days)` and `today`, both formatted `%Y-%m-%d`. */
  function RangeEndingOn(today: Date, days: nat): (r: DateRange)
    requires Valid(today) && Ordinal(today) > days
    ensures Spans(r, today, days)
  {
    var start := SubDays(today, days);
    ParseFormatted(start);
    ParseFormatted(today);
    DateRange(FormatIso(start), FormatIso(today))
  }

  /** The range ending on `today` starts at the one valid date `days` day numbers earlier. */
  lemma RangeStartsAt(today: Date, days: nat, start: Date)
    requires Valid(today) && Valid(start) && Ordinal(start) + days == Ordinal(today)
    ensures RangeEndingOn(today, days) == DateRange(FormatIso(start), FormatIso(today))
  {
    SubDaysUnique(today, days, start);
  }

  /** A range is pinned down by its end date and its length: no two different string pairs fit both. */
  lemma SpansUnique(r1: DateRange, r2: DateRange, today: Date, days: nat)
    requires Spans(r1, today, days) && Spans(r2, today, days)
    ensures r1 == r2
  {
    var s1, s2 := ParseIso(r1.fromDate).value, ParseIso(r2.fromDate).value;
    OrdinalInjective(s1, s2);
    FormatParsed(r1.fromDate);
    FormatParsed(r2.fromDate);
    FormatParsed(r1.toDate);
    FormatParsed(r2.toDate);
  }

  /**
   * The start of a range is never after its end, its end is today's date
   * written `YYYY-MM-DD`, and both strings have the ISO shape.
   */
  lemma SpanShape(r: DateRange, today: Date, days: nat)
    requires Spans(r, today, days)
    ensures r.toDate == FormatIso(today)
    ensures var start := ParseIso(r.fromDate).value;
      r.fromDate == FormatIso(start) && (start == today || Before(start, today))
    ensures |r.fromDate| == 10 && r.fromDate[4] == '-' && r.fromDate[7] == '-'
    ensures |r.toDate| == 10 && r.toDate[4] == '-' && r.toDate[7] == '-'
    ensures days == 0 <==> r.fromDate == r.toDate
  {
    var start := ParseIso(r.fromDate).value;
    FormatParsed(r.fromDate);
    FormatParsed(r.toDate);
    OrdinalOrder(start, today);
  }

}
