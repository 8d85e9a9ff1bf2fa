/**
 * share.py: the console variant. Its date resolver, the guards and query of
 * `fetch_news_for_stocks`, and the letter menu that picks a period.
 */
module ShareScript {
  import opened Options
  import opened Calendar
  import opened IsoFormat
  import opened DateRanges
  import opened NewsQuery

  /** `NEWS_API_KEY` as shipped, before the user pastes a real key. */
  const ApiKeyPlaceholder := "YOUR_API_KEY_HERE"

  /** The period tags `get_date_range` tests for explicitly. */
  predicate IsRecognised(periodName: string) {
    periodName == "last_week" || periodName == "last_4_weeks"
    || periodName == "last_3_months" || periodName == "last_6_months"
  }

  /** The `timedelta` each branch of `get_date_range` subtracts, in days. */
  function OffsetDays(periodName: string): (days: nat)
    ensures IsRecognised(periodName) || days == 7
  {
    if periodName == "last_week" then 7
    else if periodName == "last_4_weeks" then 4 * 7
    else if periodName == "last_3_months" then 90
    else if periodName == "last_6_months" then 180
    else 7
  }

  /** `get_date_range(period_name)` with `datetime.now()` passed in as `today`. */
  function GetDateRange(periodName: string, today: Date): (r: DateRange)
    requires Valid(today) && Ordinal(today) > OffsetDays(periodName)
    ensures periodName == "last_week" ==> Spans(r, today, 7)
    ensures periodName == "last_4_weeks" ==> Spans(r, today, 28)
    ensures periodName == "last_3_months" ==> Spans(r, today, 90)
    ensures periodName == "last_6_months" ==> Spans(r, today, 180)
    ensures !IsRecognised(periodName) ==> Spans(r, today, 7)
  {
    RangeEndingOn(today, OffsetDays(periodName))
  }

  /** An unknown tag is answered exactly as `"last_week"` is, without failing. */
  lemma UnrecognisedIsLastWeek(periodName: string, today: Date)
    requires !IsRecognised(periodName)
    requires Valid(today) && Ordinal(today) > 7
    ensures GetDateRange(periodName, today) == GetDateRange("last_week", today)
  {
    SpansUnique(GetDateRange(periodName, today), GetDateRange("last_week", today), today, 7);
  }

  /** Both strings of every range are `YYYY-MM-DD`, the end is today, and the start is not after it. */
  lemma DateRangeShape(periodName: string, today: Date)
    requires Valid(today) && Ordinal(today) > OffsetDays(periodName)
    ensures var r := GetDateRange(periodName, today);
      && r.toDate == FormatIso(today)
      && |r.fromDate| == 10 && r.fromDate[4] == '-' && r.fromDate[7] == '-'
      && ParseIso(r.fromDate).Some?
      && (ParseIso(r.fromDate).value == today || Before(ParseIso(r.fromDate).value, today))
  {
    SpanShape(GetDateRange(periodName, today), today, OffsetDays(periodName));
  }

  /** How the dates of the examples below are written. */
  lemma ExampleSpellings()
    ensures FormatIso(Date(2024, 3, 15)) == "2024-03-15"
    ensures FormatIso(Date(2024, 3, 8)) == "2024-03-08"
    ensures FormatIso(Date(2023, 12, 16)) == "2023-12-16"
    ensures FormatIso(Date(2023, 9, 17)) == "2023-09-17"
    ensures FormatIso(Date(2024, 2, 29)) == "2024-02-29"
    ensures FormatIso(Date(2023, 12, 1)) == "2023-12-01"
  {
  }

  /** The resolver answers with the one date whose day number is the offset earlier. */
  lemma ResolvesTo(periodName: string, today: Date, start: Date)
    requires Valid(today) && Valid(start) && Ordinal(start) + OffsetDays(periodName) == Ordinal(today)
    ensures GetDateRange(periodName, today) == DateRange(FormatIso(start), FormatIso(today))
  {
    RangeStartsAt(today, OffsetDays(periodName), start);
  }

  /** One week back from 2024-03-15. */
  lemma LastWeekExample()
    ensures GetDateRange("last_week", Date(2024, 3, 15)) == DateRange("2024-03-08", "2024-03-15")
  {
    ResolvesTo("last_week", Date(2024, 3, 15), Date(2024, 3, 8));
    ExampleSpellings();
  }

  /** 90 days back from 2024-03-15 crosses the leap day and the year end. */
  lemma LastThreeMonthsExample()
    ensures GetDateRange("last_3_months", Date(2024, 3, 15)) == DateRange("2023-12-16", "2024-03-15")
  {
    ResolvesTo("last_3_months", Date(2024, 3, 15), Date(2023, 12, 16));
    ExampleSpellings();
  }

  /** 180 days back from 2024-03-15. */
  lemma LastSixMonthsExample()
    ensures GetDateRange("last_6_months", Date(2024, 3, 15)) == DateRange("2023-09-17", "2024-03-15")
  {
    ResolvesTo("last_6_months", Date(2024, 3, 15), Date(2023, 9, 17));
    ExampleSpellings();
  }

  /** 90 days back from the leap day itself is a true calendar count, not three months. */
  lemma LeapDayExample()
    ensures GetDateRange("last_3_months", Date(2024, 2, 29)) == DateRange("2023-12-01", "2024-02-29")
  {
    ResolvesTo("last_3_months", Date(2024, 2, 29), Date(2023, 12, 1));
    ExampleSpellings();
  }

  /**
   * The guards of `fetch_news_for_stocks` and the query it then builds. The
   * key is the module constant; the model takes it as a parameter. Both
   * early exits print a message and return `None`.
   */
  function FetchStepFor(apiKey: string, stockList: seq<string>): (step: FetchStep)
    ensures step.Search? <==> apiKey != ApiKeyPlaceholder && |stockList| > 0
    ensures step.Search? ==> step.query == BuildQuery(stockList)
    ensures apiKey == ApiKeyPlaceholder ==> step == Skipped(PlaceholderKey)
    ensures apiKey != ApiKeyPlaceholder && |stockList| == 0 ==> step == Skipped(NoStocks)
    ensures step.Search? && (forall i :: 0 <= i < |stockList| ==> IsPlainSymbol(stockList[i])) ==>
      QueriedSymbols(step.query) == Some(QuerySymbols(stockList))
  {
    if apiKey == ApiKeyPlaceholder then Skipped(PlaceholderKey)
    else if |stockList| == 0 then Skipped(NoStocks)
    else
      QueryRoundTrip(stockList);
      Search(BuildQuery(stockList))
  }

  /** `str.lower()` on the characters that can matter here: ASCII capitals become small letters. */
  function AsciiLower(s: string): (t: string)
    ensures |t| == |s|
    ensures forall i :: 0 <= i < |s| ==>
      t[i] == if 'A' <= s[i] <= 'Z' then (s[i] as int + 32) as char else s[i]
  {
    if s == [] then [] else AsciiLower(s[..|s| - 1]) + [if 'A' <= s[|s| - 1] <= 'Z' then (s[|s| - 1] as int + 32) as char else s[|s| - 1]]
  }

  /** A one-letter answer, in either case. */
  predicate IsLetterAnswer(choice: string, letter: char)
    requires 'a' <= letter <= 'z'
  {
    choice == [letter] || choice == [(letter as int - 32) as char]
  }

  /** Lower-casing gives a small letter exactly when the input is that letter in either case. */
  lemma LowerIsLetter(choice: string, letter: char)
    requires 'a' <= letter <= 'z'
    ensures AsciiLower(choice) == [letter] <==> IsLetterAnswer(choice, letter)
  {
    if AsciiLower(choice) == [letter] {
      assert |choice| == 1;
    }
  }

  /** The period menu of `main`: `input(...).lower()` matched against a, b, c and d. */
  function ChoosePeriod(choice: string): (periodName: string)
    ensures IsRecognised(periodName)
    ensures periodName == "last_4_weeks" <==> IsLetterAnswer(choice, 'b')
    ensures periodName == "last_3_months" <==> IsLetterAnswer(choice, 'c')
    ensures periodName == "last_6_months" <==> IsLetterAnswer(choice, 'd')
    ensures periodName == "last_week" <==>
      !IsLetterAnswer(choice, 'b') && !IsLetterAnswer(choice, 'c') && !IsLetterAnswer(choice, 'd')
  {
    LowerIsLetter(choice, 'a');
    LowerIsLetter(choice, 'b');
    LowerIsLetter(choice, 'c');
    LowerIsLetter(choice, 'd');
    var periodChoice := AsciiLower(choice);
    if periodChoice == "a" then "last_week"
    else if periodChoice == "b" then "last_4_weeks"
    else if periodChoice == "c" then "last_3_months"
    else if periodChoice == "d" then "last_6_months"
    else "last_week"
  }

}
