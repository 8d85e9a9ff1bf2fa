/**
 * sshare.py: the smaller web-page variant. Its resolver knows a different
 * set of tags (a 30-day "one_month" instead of four weeks, and no six-month
 * range); the guards, the query and the period selector otherwise follow
 * hello.py.
 */
module SshareApp {
  import opened Options
  import opened Calendar
  import opened DateRanges
  import opened NewsQuery
  import ShareScript

  /** The period tags `get_date_range` tests for explicitly. */
  predicate IsRecognised(periodName: string) {
    periodName == "last_week" || periodName == "one_month" || periodName == "three_months"
  }

  /** The `timedelta` each branch of `get_date_range` subtracts, in days. */
  function OffsetDays(periodName: string): (days: nat)
    ensures IsRecognised(periodName) || days == 7
  {
    if periodName == "last_week" then 7
    else if periodName == "one_month" then 30
    else if periodName == "three_months" then 90
    else 7
  }

  /** `get_date_range(period_name)` with `datetime.now()` passed in as `today`. */
  function GetDateRange(periodName: string, today: Date): (r: DateRange)
    requires Valid(today) && Ordinal(today) > OffsetDays(periodName)
    ensures periodName == "last_week" ==> Spans(r, today, 7)
    ensures periodName == "one_month" ==> Spans(r, today, 30)
    ensures periodName == "three_months" ==> Spans(r, today, 90)
    ensures !IsRecognised(periodName) ==> Spans(r, today, 7)
  {
    RangeEndingOn(today, OffsetDays(periodName))
  }

  /** The console script's four-week and six-month tags mean nothing here and give the one-week range. */
  lemma OtherVariantsTagsFallBack(today: Date)
    requires Valid(today) && Ordinal(today) > 7
    ensures GetDateRange("last_4_weeks", today) == GetDateRange("last_week", today)
    ensures GetDateRange("last_6_months", today) == GetDateRange("last_week", today)
  {
    SpansUnique(GetDateRange("last_4_weeks", today), GetDateRange("last_week", today), today, 7);
    SpansUnique(GetDateRange("last_6_months", today), GetDateRange("last_week", today), today, 7);
  }

  /** "one_month" reaches further back than the other variants' four weeks: its start is a different day. */
  lemma OneMonthIsNotFourWeeks(today: Date)
    requires Valid(today) && Ordinal(today) > 30
    ensures GetDateRange("one_month", today).fromDate != ShareScript.GetDateRange("last_4_weeks", today).fromDate
  {
  }

  /**
   * The guards of `fetch_news_for_stocks` and the query it then builds. The
   * key comes from the page's password box; both early exits return `[]`.
   */
  function FetchStepFor(apiKey: string, stockList: seq<string>): (step: FetchStep)
    ensures step.Search? <==> apiKey != "" && |stockList| > 0
    ensures step.Search? ==> step.query == BuildQuery(stockList)
    ensures apiKey == "" ==> step == Skipped(MissingKey)
    ensures apiKey != "" && |stockList| == 0 ==> step == Skipped(NoStocks)
    ensures step.Search? && (forall i :: 0 <= i < |stockList| ==> IsPlainSymbol(stockList[i])) ==>
      QueriedSymbols(step.query) == Some(QuerySymbols(stockList))
  {
    if apiKey == "" then Skipped(MissingKey)
    else if |stockList| == 0 then Skipped(NoStocks)
    else
      QueryRoundTrip(stockList);
      Search(BuildQuery(stockList))
  }

  /**
   * `period_options`: the three labels of the period selector and their
   * tags, which are exactly the tags this resolver tests for.
   */
  function PeriodOptions(): (options: map<string, string>)
    ensures forall caption :: caption in options ==> IsRecognised(options[caption])
    ensures forall tag :: IsRecognised(tag) ==> tag in options.Values
  {
    var options := map[
      "Last Week" := "last_week",
      "One Month" := "one_month",
      "Three Months" := "three_months"
    ];
    assert options["Last Week"] == "last_week";
    assert options["One Month"] == "one_month";
    assert options["Three Months"] == "three_months";
    options
  }

}
