/**
 * The boolean search query every `fetch_news_for_stocks` sends to the news
 * search service: the first fifteen ticker symbols OR-ed together inside
 * parentheses, AND-ed with a fixed clause of market keywords. Also the
 * outcome of the guards that run before it is built.
 */
module NewsQuery {
  import opened Options

  /** Python's `stock_list[:15]` keeps at most this many symbols. */
  const MaxQuerySymbols := 15

  const Separator := " OR "

  const KeywordClause := " AND (stock OR market OR NSE OR BSE)"

  /** Why `fetch_news_for_stocks` returned before building a query. */
  datatype SkipReason =
    | PlaceholderKey  // the configured key is still the shipped placeholder
    | MissingKey      // the key typed into the page is empty
    | NoStocks        // the stock list is empty

  /** What `fetch_news_for_stocks` does with its inputs before any network call. */
  datatype FetchStep = Skipped(reason: SkipReason) | Search(query: string)

  /** `sep.join(xs)`. */
  function Join(xs: seq<string>, sep: string): (r: string) {
    if |xs| == 0 then ""
    else if |xs| == 1 then xs[0]
    else xs[0] + sep + Join(xs[1..], sep)
  }

  /** `sep` occurs in `s` starting at index `j`. */
  predicate OccursAt(s: string, sep: string, j: int) {
    0 <= j && j + |sep| <= |s| && s[j..j + |sep|] == sep
  }

  /** The first index at or after `from` where `sep` occurs in `s`, or `None` when there is none. */
  function FindFrom(s: string, sep: string, from: nat): (r: Option<nat>)
    requires |sep| > 0
    ensures r.Some? ==> from <= r.value && OccursAt(s, sep, r.value)
    ensures r.Some? ==> forall j :: from <= j < r.value ==> !OccursAt(s, sep, j)
    ensures r.None? ==> forall j :: from <= j ==> !OccursAt(s, sep, j)
    decreases |s| - from
  {
    if from + |sep| > |s| then None
    else if s[from..from + |sep|] == sep then Some(from)
    else FindFrom(s, sep, from + 1)
  }

  /** `s.split(sep)`: the pieces between non-overlapping occurrences of `sep`, left to right. */
  function Split(s: string, sep: string): (pieces: seq<string>)
    requires |sep| > 0
    ensures |pieces| >= 1
    decreases |s|
  {
    match FindFrom(s, sep, 0)
    case None => [s]
    case Some(i) => [s[..i]] + Split(s[i + |sep|..], sep)
  }

  /** `stock_list[:15]`. */
  function QuerySymbols(stocks: seq<string>): (chosen: seq<string>)
    ensures |chosen| == if |stocks| < MaxQuerySymbols then |stocks| else MaxQuerySymbols
    ensures chosen <= stocks
  {
    if |stocks| <= MaxQuerySymbols then stocks else stocks[..MaxQuerySymbols]
  }

  /** The query string: the chosen symbols joined by the separator, in parentheses, then the keyword clause. */
  function BuildQuery(stocks: seq<string>): (q: string)
    ensures |q| >= 2 + |KeywordClause| && q[0] == '('
    ensures q[|q| - |KeywordClause| - 1..] == ")" + KeywordClause
    ensures q[1..|q| - |KeywordClause| - 1] == Join(QuerySymbols(stocks), Separator)
  {
    "(" + Join(QuerySymbols(stocks), Separator) + ")" + KeywordClause
  }

  /** Reads the ticker symbols back out of a query of the shape `BuildQuery` writes. */
  function QueriedSymbols(q: string): (symbols: Option<seq<string>>) {
    var tail := ")" + KeywordClause;
    if |q| >= 1 + |tail| && q[0] == '(' && q[|q| - |tail|..] == tail then
      Some(Split(q[1..|q| - |tail|], Separator))
    else
      None
  }

  /** A symbol the OR-list can carry unambiguously: it holds no space. */
  predicate IsPlainSymbol(s: string) {
    forall i :: 0 <= i < |s| ==> s[i] != ' '
  }

  lemma {:induction false} NotFoundInPlain(s: string, sep: string, from: nat)
    requires |sep| > 0 && sep[0] == ' ' && IsPlainSymbol(s)
    ensures FindFrom(s, sep, from) == None
    decreases |s| - from
  {
    if from + |sep| <= |s| {
      assert s[from..from + |sep|][0] == s[from];
      NotFoundInPlain(s, sep, from + 1);
    }
  }

  lemma {:induction false} FoundAfterPlain(x: string, sep: string, rest: string, from: nat)
    requires |sep| > 0 && sep[0] == ' ' && IsPlainSymbol(x) && from <= |x|
    ensures FindFrom(x + sep + rest, sep, from) == Some(|x|)
    decreases |x| - from
  {
    var s := x + sep + rest;
    if from < |x| {
      assert s[from..from + |sep|][0] == x[from];
      FoundAfterPlain(x, sep, rest, from + 1);
    } else {
      assert s[from..from + |sep|] == sep;
    }
  }

  /** Splitting on the separator undoes the join, for symbols the separator cannot occur in. */
  lemma {:induction false} SplitJoin(xs: seq<string>)
    requires |xs| > 0
    requires forall i :: 0 <= i < |xs| ==> IsPlainSymbol(xs[i])
    ensures Split(Join(xs, Separator), Separator) == xs
  {
    if |xs| == 1 {
      NotFoundInPlain(xs[0], Separator, 0);
    } else {
      var s := Join(xs, Separator);
      var rest := Join(xs[1..], Separator);
      FoundAfterPlain(xs[0], Separator, rest, 0);
      assert s[..|xs[0]|] == xs[0];
      assert s[|xs[0]| + |Separator|..] == rest;
      SplitJoin(xs[1..]);
    }
  }

  /**
   * For a non-empty list of symbols without spaces, the query carries exactly
   * the first `min(15, |stocks|)` symbols, in their original order, between
   * the opening parenthesis and the keyword clause.
   */
  lemma QueryRoundTrip(stocks: seq<string>)
    ensures |stocks| > 0 && (forall i :: 0 <= i < |stocks| ==> IsPlainSymbol(stocks[i])) ==>
      QueriedSymbols(BuildQuery(stocks)) == Some(QuerySymbols(stocks))
  {
    if |stocks| > 0 && forall i :: 0 <= i < |stocks| ==> IsPlainSymbol(stocks[i]) {
      var chosen := QuerySymbols(stocks);
      var q := BuildQuery(stocks);
      var tail := ")" + KeywordClause;
      assert q[1..|q| - |tail|] == Join(chosen, Separator);
      assert q[|q| - |tail|..] == tail;
      SplitJoin(chosen);
    }
  }

  /** Symbols past the fifteenth never reach the query. */
  lemma QueryIgnoresTail(stocks: seq<string>, more: seq<string>)
    requires |stocks| >= MaxQuerySymbols
    ensures BuildQuery(stocks + more) == BuildQuery(stocks)
  {
    assert (stocks + more)[..MaxQuerySymbols] == stocks[..MaxQuerySymbols];
    assert QuerySymbols(stocks + more) == QuerySymbols(stocks);
  }

}
