/** The fundamentals rows of `compute_all`: periods 0 and 1 of three statement line items per symbol. */
module Fundamentals {
  import opened Wrappers
  import Seqs
  import Columns

  /** One reporting period of a statement, as its JSON object (a null or absent field is absent). */
  type Record = map<string, real>

  /** `record.get(key)`. */
  function Get(r: Record, key: string): Option<real>
  {
    if key in r then Some(r[key]) else None
  }

  /** What `fetch_fundamentals` returns for one symbol: income and cash-flow statements, latest first. */
  datatype Statements = Statements(income: seq<Record>, cashflow: seq<Record>)

  /** One `frows` entry; a field the statement lacks is `None`. */
  datatype FundRow = FundRow(
    ticker: string,
    revenue: Option<real>, prevRevenue: Option<real>,
    netIncome: Option<real>, prevNetIncome: Option<real>,
    operatingCashFlow: Option<real>, prevOperatingCashFlow: Option<real>)

  /** The row appended for `sym`, when both statement lists have at least two periods. */
  function RowFor(sym: string, st: Statements): (r: Option<FundRow>)
    ensures r.Some? <==> |st.income| >= 2 && |st.cashflow| >= 2
    ensures r.Some? ==> r.value.ticker == sym
    ensures r.Some? ==>
      && r.value.revenue == Get(st.income[0], "revenue") && r.value.prevRevenue == Get(st.income[1], "revenue")
      && r.value.netIncome == Get(st.income[0], "netIncome") && r.value.prevNetIncome == Get(st.income[1], "netIncome")
      && r.value.operatingCashFlow == Get(st.cashflow[0], "operatingCashFlow")
      && r.value.prevOperatingCashFlow == Get(st.cashflow[1], "operatingCashFlow")
  {
    if |st.income| >= 2 && |st.cashflow| >= 2 then
      Some(FundRow(sym,
        Get(st.income[0], "revenue"), Get(st.income[1], "revenue"),
        Get(st.income[0], "netIncome"), Get(st.income[1], "netIncome"),
        Get(st.cashflow[0], "operatingCashFlow"), Get(st.cashflow[1], "operatingCashFlow")))
    else None
  }

  /** The `frows` list built for `tickers`: one row per symbol that has both statements. */
  function CollectedRows(tickers: seq<string>, fetch: string -> Statements): (r: seq<FundRow>)
    ensures forall x :: x in r ==> x.ticker in tickers
  {
    if tickers == [] then []
    else
      var init := tickers[..|tickers| - 1];
      var sym := tickers[|tickers| - 1];
      var r := CollectedRows(init, fetch) + match RowFor(sym, fetch(sym)) case None => [] case Some(row) => [row];
      assert forall x :: x in init ==> x in tickers;
      r
  }

  /** The `for sym in tickers` loop that fetches each symbol's statements and fills `frows`. */
  method CollectFundamentals(tickers: seq<string>, fetch: string -> Statements) returns (frows: seq<FundRow>)
    ensures frows == CollectedRows(tickers, fetch)
  {
    frows := [];
    var i := 0;
    while i < |tickers|
      invariant 0 <= i <= |tickers|
      invariant frows == CollectedRows(tickers[..i], fetch)
    {
      var sym := tickers[i];
      var st := fetch(sym);
      assert tickers[..i + 1][..i] == tickers[..i];
      if |st.income| >= 2 && |st.cashflow| >= 2 {
        frows := frows + [FundRow(sym,
          Get(st.income[0], "revenue"), Get(st.income[1], "revenue"),
          Get(st.income[0], "netIncome"), Get(st.income[1], "netIncome"),
          Get(st.cashflow[0], "operatingCashFlow"), Get(st.cashflow[1], "operatingCashFlow"))];
      }
      i := i + 1;
    }
    assert tickers[..i] == tickers;
  }

  /** The `fund_df` row a left merge on `Ticker` attaches to `sym`: the first with that ticker. */
  function Lookup(frows: seq<FundRow>, sym: string): (r: Option<FundRow>)
    ensures r.Some? ==> r.value in frows && r.value.ticker == sym
    ensures r.None? ==> forall x :: x in frows ==> x.ticker != sym
  {
    if frows == [] then None
    else
      var init := frows[..|frows| - 1];
      var last := frows[|frows| - 1];
      assert frows == init + [last];
      match Lookup(init, sym)
      case Some(x) => Some(x)
      case None => if last.ticker == sym then Some(last) else None
  }

  lemma LookupSnoc(frows: seq<FundRow>, row: FundRow, sym: string)
    ensures Lookup(frows + [row], sym) ==
      match Lookup(frows, sym)
      case Some(x) => Some(x)
      case None => if row.ticker == sym then Some(row) else None
  {
    assert (frows + [row])[..|frows|] == frows;
  }

  /**
   * For a duplicate-free ticker list, the merged fundamentals of `sym` exist exactly when
   * `sym` is listed and both of its statement lists have two periods, and they hold that
   * symbol's period-0 and period-1 values.
   */
  lemma {:induction false} LookupCollected(tickers: seq<string>, fetch: string -> Statements, sym: string)
    requires Seqs.Distinct(tickers)
    ensures Lookup(CollectedRows(tickers, fetch), sym) == if sym in tickers then RowFor(sym, fetch(sym)) else None
    decreases |tickers|
  {
    if tickers != [] {
      var init := tickers[..|tickers| - 1];
      var t := tickers[|tickers| - 1];
      assert tickers == init + [t];
      assert Seqs.Distinct(init);
      assert t !in init;
      LookupCollected(init, fetch, sym);
      match RowFor(t, fetch(t))
      case None =>
        assert CollectedRows(tickers, fetch) == CollectedRows(init, fetch);
      case Some(row) =>
        assert CollectedRows(tickers, fetch) == CollectedRows(init, fetch) + [row];
        LookupSnoc(CollectedRows(init, fetch), row, sym);
    }
  }

  /** One growth column: `(latest > previous).astype(int)`, so a missing value gives 0. */
  function GrowthFlag(latest: Option<real>, previous: Option<real>): (r: int)
    ensures r == 0 || r == 1
    ensures r == 1 <==> latest.Some? && previous.Some? && latest.value > previous.value
  {
    Columns.AsInt(Columns.Greater(latest, previous))
  }
}
