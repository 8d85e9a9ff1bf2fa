# Stock news scripts: date ranges, search query and period menus

The repository holds four variants of one script. Each one fetches lists of NSE ticker
symbols, asks a news search service for articles about them, and shows the results on a
console (`share.py`) or a Streamlit page (`hello.py`, `sshare.py`). `shharee.py` is a
stripped-down copy that keeps only the date helper. This project models the logic the
scripts themselves contain:

- **`get_date_range`** (all four files). It maps a period tag to a number of days and
  subtracts that from today in the proleptic Gregorian calendar. It returns both dates as
  `YYYY-MM-DD`, the extended calendar-date format of ISO 8601:2004 (section 4.1.2.2),
  except that shharee.py writes its end date as `YYYY-m-DD` (see "## Findings").
  A tag it does not know silently gives the 7-day range. One shared calendar
  (`calendar.dfy`), formatter (`isoformat.dfy`) and range builder (`dateranges.dfy`) are
  used by every script. Each script module (`share.dfy`, `hello.dfy`, `sshare.dfy`,
  `shharee.dfy`) has its own if/elif offset table. `datetime.now()` becomes a `today`
  parameter. Subtracting whole days never changes the time of day, so dates are enough.
- **The search query** (`newsquery.dfy`). It takes at most the first 15 symbols, joins them with
  `" OR "` inside parentheses, and appends `" AND (stock OR market OR NSE OR BSE)"`.
  A parser (`QueriedSymbols`, built on a model of `str.split`) reads the symbols back out.
  Its round-trip lemma is the partner of the builder.
- **The guards of `fetch_news_for_stocks`**. They run before any query is built: the
  placeholder key in `share.py`, an empty key in the page variants, and an empty stock list.
- **The period menus**. The console letter menu of `share.py`, and the `period_options`
  dictionaries of the page variants.

The central predicate is `DateRanges.Spans(r, today, days)`. It holds when the end string
reads back as `today` and the start string reads back as the date exactly `days` day
numbers earlier. Day numbers are Python's `date.toordinal()`. `DateRanges.SpansUnique`
shows that `Spans` fixes the pair of strings completely, so each resolver contract
determines its result. Every function is pure, so the resolvers are deterministic by
construction.

## Model

| member | source | states |
|---|---|---|
| Calendar.DaysInMonth | share.py:104-118 | month lengths are 28 to 31 days; 29 occurs exactly for February of a Gregorian leap year |
| Calendar.DaysBeforeNextYear | share.py:104-118 | the closed-form count of days before a year grows by exactly that year's length (365 or 366) |
| Calendar.OrdinalOrder | share.py:104-118 | day numbers follow chronological order in both directions, and two valid dates are equal iff their day numbers are |
| Calendar.OrdinalInjective | share.py:104-118 | a valid date is determined by its day number |
| Calendar.PrevDay | share.py:104-118 | the day before a valid date is valid and exactly one day number earlier, across month, year and leap-day boundaries |
| Calendar.SubDays | share.py:104-118 | `today - timedelta(days=n)` is a valid date exactly n day numbers earlier, provided it stays after 0001-01-01 |
| Calendar.SubDaysUnique | share.py:104-118 | subtracting n days gives the only valid date with that day number, as `date.fromordinal` would |
| IsoFormat.Pad2 | share.py:121 | `%m` and `%d` write two zero-padded digits that read back as the number |
| IsoFormat.Pad4 | share.py:121 | `%Y` writes four zero-padded digits that read back as the year |
| IsoFormat.FormatIso | share.py:121 | `strftime("%Y-%m-%d")` is 10 characters with `-` at positions 4 and 7 |
| IsoFormat.ParseFormatted | share.py:121 | a formatted date parses back to the same date |
| IsoFormat.FormatParsed | share.py:121 | every string the ISO parser accepts is the formatting of the date it reads |
| IsoFormat.FormatInjective | share.py:121 | distinct dates are written as distinct strings |
| DateRanges.RangeEndingOn | share.py:104-121 | the pair (today minus n days, today), both formatted, spans exactly n days ending today |
| DateRanges.RangeStartsAt | share.py:104-121 | the range's start string is the formatting of the one valid date n day numbers before today |
| DateRanges.SpansUnique | share.py:104-121 | two ranges spanning the same number of days to the same today are equal |
| DateRanges.SpanShape | share.py:121 | end is today as `YYYY-MM-DD`; start is not after end; both strings have the ISO shape; start equals end iff the offset is 0 |
| NewsQuery.QuerySymbols | share.py:146 | `stock_list[:15]` is a prefix of the list of length min(15, length) |
| NewsQuery.SplitJoin | share.py:150 | splitting the `" OR "`-joined symbols on `" OR "` (each piece ending at the first separator left) gives back the symbols, for symbols without spaces |
| NewsQuery.BuildQuery | share.py:146-150 | `(`, then the first min(15, n) symbols joined by `" OR "`, then `)` and the keyword clause `" AND (stock OR market OR NSE OR BSE)"` |
| NewsQuery.QueryRoundTrip | share.py:146-150 | the query holds exactly the first min(15, n) symbols in order, inside parentheses, followed by the keyword clause |
| NewsQuery.QueryIgnoresTail | share.py:146 | symbols after the fifteenth never change the query |
| ShareScript.OffsetDays | share.py:106-118 | tags other than the four recognised ones get 7 days |
| ShareScript.GetDateRange | share.py:99-121 | last_week spans 7 days, last_4_weeks 28, last_3_months 90, last_6_months 180, any other tag 7; the end is today |
| ShareScript.UnrecognisedIsLastWeek | share.py:116-118 | an unknown tag gives exactly the result of "last_week" and never fails |
| ShareScript.DateRangeShape | share.py:121 | end is today formatted `YYYY-MM-DD`; start is a 10-character ISO date not after today |
| ShareScript.ResolvesTo | share.py:99-121 | the resolver returns the formatting of the date whose day number is the tag's offset earlier |
| ShareScript.LastWeekExample | share.py:106-107 | last_week on 2024-03-15 gives ("2024-03-08", "2024-03-15") |
| ShareScript.LastThreeMonthsExample | share.py:110-112 | last_3_months on 2024-03-15 gives ("2023-12-16", "2024-03-15") |
| ShareScript.LastSixMonthsExample | share.py:113-115 | last_6_months on 2024-03-15 gives ("2023-09-17", "2024-03-15") |
| ShareScript.LeapDayExample | share.py:110-112 | last_3_months on 2024-02-29 gives ("2023-12-01", "2024-02-29"), a true 90-day count |
| ShareScript.FetchStepFor | share.py:129-150 | a query is built iff the key is not the placeholder and the list is non-empty; the placeholder is checked first; the query is always the one `BuildQuery` writes, and for symbols without spaces it reads back as the first min(15, n) symbols |
| ShareScript.AsciiLower | share.py:238 | lower-casing keeps the length and maps each capital A-Z to its small letter, nothing else |
| ShareScript.LowerIsLetter | share.py:238 | an answer lower-cases to a single small letter iff it is that letter in either case |
| ShareScript.ChoosePeriod | share.py:238-250 | a/A, b/B, c/C, d/D give last_week, last_4_weeks, last_3_months and last_6_months; every other answer gives last_week; the result is always a recognised tag |
| HelloApp.OffsetDays | hello.py:100-109 | tags other than the four recognised ones get 7 days |
| HelloApp.GetDateRange | hello.py:93-111 | last_week spans 7 days, last_4_weeks 28, last_3_months 90, last_6_months 180, any other tag 7; the end is today |
| HelloApp.SameRangesAsShare | hello.py:100-111 | the offsets and the ranges are those of share.py, tag for tag |
| HelloApp.FetchStepFor | hello.py:120-129 | an empty key skips first, then an empty list; otherwise the query is always the one `BuildQuery` writes, and for symbols without spaces it reads back as the first min(15, n) symbols |
| HelloApp.PeriodOptions | hello.py:207-212 | every offered label maps to a recognised tag, and every recognised tag is offered |
| SshareApp.OffsetDays | sshare.py:101-108 | tags other than the three recognised ones get 7 days |
| SshareApp.GetDateRange | sshare.py:94-110 | last_week spans 7 days, one_month 30, three_months 90, any other tag 7; the end is today |
| SshareApp.OtherVariantsTagsFallBack | sshare.py:107-108 | "last_4_weeks" and "last_6_months" give exactly the one-week range here |
| SshareApp.OneMonthIsNotFourWeeks | sshare.py:103-104 | "one_month" starts on a different day than the other variants' "last_4_weeks" |
| SshareApp.FetchStepFor | sshare.py:119-132 | an empty key skips first, then an empty list; otherwise the query is always the one `BuildQuery` writes, and for symbols without spaces it reads back as the first min(15, n) symbols |
| SshareApp.PeriodOptions | sshare.py:194-198 | every offered label maps to a recognised tag, and every recognised tag is offered |
| ShhareeScript.OffsetDays | shharee.py:28-37 | tags other than the four recognised ones get 7 days |
| ShhareeScript.SameOffsetsAsShare | shharee.py:28-37 | the offset table and the recognised tags are those of share.py |
| ShhareeScript.MalformedEnd | shharee.py:39 | `"%Y-m-%d"` gives 9 characters: the year, the literal `-m-`, the day; never an ISO date |
| ShhareeScript.GetDateRange | shharee.py:21-39 | the start is 7, 28, 90 or 180 days back (7 for unknown tags); the end is the malformed string |
| ShhareeScript.StartAsInShare | shharee.py:39 | the start string is the correctly padded `YYYY-MM-DD` of share.py |
| ShhareeScript.UnrecognisedIsLastWeek | shharee.py:36-37 | an unknown tag gives exactly the result of "last_week" and never fails |
| ShhareeScript.EndIgnoresMonth | shharee.py:39 | two days that differ only in the month give the same end string |
| ShhareeScript.EndIsNotIso | shharee.py:39 | the end string never parses as a date; it is today's ISO string with the month digits replaced by `m` |
| ShhareeScript.MonthLetterForDigits | shharee.py:39 | putting the month's two digits in place of the `m` gives today's ISO spelling |
| ShhareeScript.MalformedEndExample | shharee.py:39 | on 2024-03-15 the end string is "2024-m-15", which does not parse |
| ShhareeScript.IntendedDateRange | shharee.py:21-39 | with `"%Y-%m-%d"` for the end, the range spans exactly the tag's offset and keeps the same start |

## Findings

| source | as written | input that shows it | evidently intended | confidence | as-written member | corrected member |
|---|---|---|---|---|---|---|
| shharee.py:39 | `today.strftime("%Y-m-%d")`: the month directive lacks its `%` | today = 2024-03-15 gives the end string "2024-m-15" | `"%Y-%m-%d"`, as the docstring says and the other three scripts do | high; not executed | ShhareeScript.MalformedEndExample | ShhareeScript.IntendedDateRange |

`ShhareeScript.GetDateRange` keeps the code as written. No other resolver, guard or menu uses it; only the lemmas about shharee.py mention it.

## Left out

- Fetching stock lists (`get_fno_stocks`, `get_index_stocks` and the large-, mid- and small-cap wrappers) is not modelled. It is HTTP and CSV reading through pandas and nsetools. The stock list is an input of `FetchStepFor`.
- The news search call (`NewsApiClient.get_everything`), its result handling and its exception messages are not modelled. They are network I/O through a third-party client. The model stops at the query handed to it.
- `get_sentiment` in hello.py is not modelled. It thresholds a floating-point score from the VADER library.
- All Streamlit rendering, `@st.cache_data`, `st.stop` and the stock-list selector are not modelled. Neither are the console loop of `share.py` `main`, its stock-list menu (`1`-`4`, `0`), the printing, and the article display through `pd.to_datetime`. These are UI and framework behaviour.
- `datetime.now()` is the `today` parameter. The clock and the time of day are not modelled.
- Python raises `OverflowError` when the subtraction goes below 0001-01-01. The resolvers instead require `Ordinal(today) > OffsetDays(tag)`.
- IsoFormat.Pad4: always writes four digits. For years below 1000, CPython's `%Y` depends on the platform's `strftime`. The ISO shape is only promised for years 1000 to 9999.
- ShareScript.AsciiLower: lowers only ASCII capitals, not all of Unicode as `str.lower` does. No other character lowers to `a`, `b`, `c` or `d`, so `ChoosePeriod` is exact.
- NewsQuery.QueryRoundTrip: promises the read-back only for a non-empty list of symbols without spaces, because only then does splitting on `" OR "` undo the join. `BuildQuery` itself accepts any symbols.
- `share.py` returns `None` from both early exits, while hello.py and sshare.py return `[]`. Both are modelled as `Skipped` with a reason. The printed messages are left out.
- The order of the selector labels (`list(period_options.keys())`) is not modelled. The dictionaries are maps.
- The `__main__` block of shharee.py, which prints one range, is left out.
