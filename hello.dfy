/**
 * hello.py: the web-page variant with sentiment labels. Its date resolver,
 * the guards and query of `fetch_news_for_stocks`, and the label-to-tag
 * dictionary behind the period selector.
 */
module HelloApp {
  import opened Options
  import opened Calendar
  import opened DateRanges
  import opened NewsQuery
  import ShareScript

  /** The period tags `get_date_range` tests for explicitly. */
  predicate IsRecognised(periodName: string) {
    periodName == "last_week" || periodName == "last_4_weeks"
    || periodName == "last_3_months" || periodName == "last_6_months"
  }

  /** The `timedelta` each branch of `get_date_range` subtracts, in days. */
  function OffsetDays(periodName: string): (days: nat)
    ensures IsRecognised(periodName) || days == 7
  {
    if periodName == "last_week" then 7
    else if periodName == "last_4_weeks" then 4 * 7
    else if periodName == "last_3_months" then 90
    else if periodName == "last_6_months" then 180
    else 7
  }

  /** `get_date_range(period_name)` with `datetime.now()` passed in as `today`. */
  function GetDateRange(periodName: string, today: Date): (r: DateRange)
    requires Valid(today) && Ordinal(today) > OffsetDays(periodName)
    ensures periodName == "last_week" ==> Spans(r, today, 7)
    ensures periodName == "last_4_weeks" ==> Spans(r, today, 28)
    ensures periodName == "last_3_months" ==> Spans(r, today, 90)
    ensures periodName == "last_6_months" ==> Spans(r, today, 180)
    ensures !IsRecognised(periodName) ==> Spans(r, today, 7)
  {
    RangeEndingOn(today, OffsetDays(periodName))
  }

  /** This resolver and the console script's answer every tag with the same range. */
  lemma SameRangesAsShare(periodName: string, today: Date)
    requires Valid(today) && Ordinal(today) > OffsetDays(periodName)
    ensures ShareScript.OffsetDays(periodName) == OffsetDays(periodName)
    ensures ShareScript.GetDateRange(periodName, today) == GetDateRange(periodName, today)
  {
  }

  /**
   * The guards of `fetch_news_for_stocks` and the query it then builds. The
   * key comes from the page's password box; both early exits return `[]`.
   */
  function FetchStepFor(apiKey: string, stockList: seq<string>): (step: FetchStep)
    ensures step.Search? <==> apiKey != "" && |stockList| > 0
    ensures step.Search? ==> step.query == BuildQuery(stockList)
    ensures apiKey == "" ==> step == Skipped(MissingKey)
    ensures apiKey != "" && |stockList| == 0 ==> step == Skipped(NoStocks)
    ensures step.Search? && (forall i :: 0 <= i < |stockList| ==> IsPlainSymbol(stockList[i])) ==>
      QueriedSymbols(step.query) == Some(QuerySymbols(stockList))
  {
    if apiKey == "" then Skipped(MissingKey)
    else if |stockList| == 0 then Skipped(NoStocks)
    else
      QueryRoundTrip(stockList);
      Search(BuildQuery(stockList))
  }

  /**
   * `period_options`: the labels offered in the period selector and the tag
   * each stands for. Every offered label lands on a tag the resolver tests
   * for, so its fallback branch cannot be reached from the page, and every
   * such tag is offered.
   */
  function PeriodOptions(): (options: map<string, string>)
    ensures forall caption :: caption in options ==> IsRecognised(options[caption])
    ensures forall tag :: IsRecognised(tag) ==> tag in options.Values
  {
    var options := map[
      "Last Week (7 days)" := "last_week",
      "Last 4 Weeks" := "last_4_weeks",
      "Last 3 Months" := "last_3_months",
      "Last 6 Months" := "last_6_months"
    ];
    assert options["Last Week (7 days)"] == "last_week";
    assert options["Last 4 Weeks"] == "last_4_weeks";
    assert options["Last 3 Months"] == "last_3_months";
    assert options["Last 6 Months"] == "last_6_months";
    options
  }

}
