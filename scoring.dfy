/**
 * The scoring half of `compute_all`: the merged snapshot, the growth flags and financial
 * score, the strict filter, the slope normalisation, the final score and its ranking, and
 * the minimum-score view of the table.
 */
module Scoring {
  import opened Wrappers
  import Seqs
  import Sorting
  import Batching
  import Prices
  import Technical
  import Fundamentals
  import Columns

  /** A snapshot row: the technical columns and, when the left merge found one, the fundamentals. */
  datatype Row = Row(snap: Technical.Snap, fund: Option<Fundamentals.FundRow>)
  {
    function Ticker(): string
    {
      snap.bar.ticker
    }

    /** `RevenueGrowth`: a row without fundamentals compares NaN and gets 0. */
    function RevenueGrowth(): (g: int)
      ensures g == 0 || g == 1
      ensures g == 1 <==> fund.Some? && Columns.Greater(fund.value.revenue, fund.value.prevRevenue)
    {
      if fund.Some? then Fundamentals.GrowthFlag(fund.value.revenue, fund.value.prevRevenue) else 0
    }

    /** `ProfitGrowth`. */
    function ProfitGrowth(): (g: int)
      ensures g == 0 || g == 1
      ensures g == 1 <==> fund.Some? && Columns.Greater(fund.value.netIncome, fund.value.prevNetIncome)
    {
      if fund.Some? then Fundamentals.GrowthFlag(fund.value.netIncome, fund.value.prevNetIncome) else 0
    }

    /** `CashflowGrowth`. */
    function CashflowGrowth(): (g: int)
      ensures g == 0 || g == 1
      ensures g == 1 <==> fund.Some? && Columns.Greater(fund.value.operatingCashFlow, fund.value.prevOperatingCashFlow)
    {
      if fund.Some? then
        Fundamentals.GrowthFlag(fund.value.operatingCashFlow, fund.value.prevOperatingCashFlow)
      else 0
    }

    /** `FinancialScore`: the mean of the three flags, always over all three. */
    function FinancialScore(): (s: real)
      ensures 0.0 <= s <= 1.0
      ensures s == 1.0 <==> RevenueGrowth() == 1 && ProfitGrowth() == 1 && CashflowGrowth() == 1
      ensures s == 0.0 <==> RevenueGrowth() == 0 && ProfitGrowth() == 0 && CashflowGrowth() == 0
    {
      (RevenueGrowth() + ProfitGrowth() + CashflowGrowth()) as real / 3.0
    }
  }

  /** `snapshot.merge(fund_df, on="Ticker", how="left")`. */
  function Merge(snaps: seq<Technical.Snap>, frows: seq<Fundamentals.FundRow>): (r: seq<Row>)
    ensures |r| == |snaps|
    ensures forall i :: 0 <= i < |r| ==> r[i].snap == snaps[i]
  {
    seq(|snaps|, i requires 0 <= i < |snaps| => Row(snaps[i], Fundamentals.Lookup(frows, snaps[i].bar.ticker)))
  }

  /**
   * For a duplicate-free ticker list, a merged row carries fundamentals exactly when its
   * ticker was listed and the provider returned two periods of both statements, and then
   * they are that ticker's own.
   */
  lemma MergedFundamentals(snaps: seq<Technical.Snap>, tickers: seq<string>, fetch: string -> Fundamentals.Statements)
    requires Seqs.Distinct(tickers)
    ensures var r := Merge(snaps, Fundamentals.CollectedRows(tickers, fetch));
      forall i :: 0 <= i < |r| ==>
        r[i].fund == if r[i].Ticker() in tickers then Fundamentals.RowFor(r[i].Ticker(), fetch(r[i].Ticker())) else None
  {
    var r := Merge(snaps, Fundamentals.CollectedRows(tickers, fetch));
    forall i | 0 <= i < |r|
      ensures r[i].fund == if r[i].Ticker() in tickers then Fundamentals.RowFor(r[i].Ticker(), fetch(r[i].Ticker())) else None
    {
      Fundamentals.LookupCollected(tickers, fetch, r[i].Ticker());
    }
  }

  /** The `snapshot` table `compute_all` returns for a non-empty price frame. */
  function Snapshot(prices: seq<Prices.Bar>, frows: seq<Fundamentals.FundRow>): (r: seq<Row>)
    ensures |r| == |Technical.Tickers(prices)|
    ensures forall i :: 0 <= i < |r| ==>
      r[i].snap == Technical.SnapOf(prices, Technical.Tickers(prices)[i]) &&
      r[i].fund == Fundamentals.Lookup(frows, Technical.Tickers(prices)[i])
  {
    Merge(Technical.TechnicalSnapshot(prices), frows)
  }

  /**
   * For a duplicate-free symbol list, the snapshot of the fetched prices has one row per ticker
   * with prices; each row is that ticker's latest-dated bar with the ticker's slope, and carries
   * the fundamentals row of its own symbol (missing when the statements were too short).
   */
  lemma SnapshotRows(tickers: seq<string>, batchSize: nat, download: seq<string> -> Option<Prices.Frame>,
                     fetch: string -> Fundamentals.Statements)
    requires batchSize > 0 && Seqs.Distinct(tickers)
    ensures var prices := FetchedPrices(tickers, batchSize, download);
      var r := Snapshot(prices, Fundamentals.CollectedRows(tickers, fetch));
      && (forall i, j :: 0 <= i < j < |r| ==> r[i].Ticker() != r[j].Ticker())
      && (forall t :: Technical.HasTicker(prices, t) <==> exists i :: 0 <= i < |r| && r[i].Ticker() == t)
      && (forall i :: 0 <= i < |r| ==>
            r[i].snap.bar in prices && r[i].snap.slope == Technical.TickerSlope(prices, r[i].Ticker()))
      && (forall i, j :: 0 <= i < |r| && 0 <= j < |prices| && prices[j].ticker == r[i].Ticker() ==>
            prices[j].date <= r[i].snap.bar.date)
      && (forall i :: 0 <= i < |r| ==>
            r[i].Ticker() in tickers && r[i].fund == Fundamentals.RowFor(r[i].Ticker(), fetch(r[i].Ticker())))
  {
    var prices := FetchedPrices(tickers, batchSize, download);
    var snaps := Technical.TechnicalSnapshot(prices);
    Prices.FetchedRows(tickers, batchSize, download);
    Technical.SnapshotIsLatestPerTicker(prices);
    MergedFundamentals(snaps, tickers, fetch);
  }

  /** A row whose three growth flags are all 1. */
  predicate PassesStrict(row: Row)
  {
    row.RevenueGrowth() == 1 && row.ProfitGrowth() == 1 && row.CashflowGrowth() == 1
  }

  /** The strict filter: exactly the rows with growth on all three statements, in snapshot order. */
  function Strict(rows: seq<Row>): (r: seq<Row>)
    ensures forall x :: x in r <==> x in rows && PassesStrict(x)
    ensures forall x :: x in r ==> x.FinancialScore() == 1.0
  {
    Seqs.Filter(rows, PassesStrict)
  }

  /**
   * The strict filter reads the fundamentals only: two snapshots that agree on them keep
   * the same positions, whatever their Trend, flags or slopes.
   */
  lemma {:induction false} StrictReadsOnlyFundamentals(rows: seq<Row>, rows': seq<Row>)
    requires |rows| == |rows'|
    requires forall i :: 0 <= i < |rows| ==> rows[i].fund == rows'[i].fund
    ensures |Strict(rows)| == |Strict(rows')|
    ensures forall i :: 0 <= i < |Strict(rows)| ==> Strict(rows)[i].fund == Strict(rows')[i].fund
    decreases |rows|
  {
    if rows != [] {
      var n := |rows| - 1;
      StrictReadsOnlyFundamentals(rows[..n], rows'[..n]);
      assert PassesStrict(rows[n]) == PassesStrict(rows'[n]);
      assert Strict(rows) == Strict(rows[..n]) + (if PassesStrict(rows[n]) then [rows[n]] else []);
      assert Strict(rows') == Strict(rows'[..n]) + (if PassesStrict(rows'[n]) then [rows'[n]] else []);
    }
  }

  /** A missing revenue counts as no growth: the score is 2/3 and the row is not strict. */
  lemma MissingValueCountsAsNoGrowth(row: Row)
    requires row.fund.Some? && row.fund.value.revenue.None?
    requires Columns.Greater(row.fund.value.netIncome, row.fund.value.prevNetIncome)
    requires Columns.Greater(row.fund.value.operatingCashFlow, row.fund.value.prevOperatingCashFlow)
    ensures row.FinancialScore() == 2.0 / 3.0
    ensures !PassesStrict(row)
  {
  }

  /** The `1e-9` added to the slope range. */
  const Epsilon: real := 0.000000001

  /** The slope column of a table. */
  function SlopeColumn(rows: seq<Row>): (r: seq<Option<real>>)
    ensures |r| == |rows| && forall i :: 0 <= i < |r| ==> r[i] == rows[i].snap.slope
  {
    seq(|rows|, i requires 0 <= i < |rows| => rows[i].snap.slope)
  }

  /** `Series.min()` over the present values. */
  function MinOf(xs: seq<real>): (m: real)
    requires |xs| > 0
    ensures m in xs && forall x :: x in xs ==> m <= x
  {
    if |xs| == 1 then xs[0]
    else
      var rest := MinOf(xs[1..]);
      assert forall x :: x in xs ==> x == xs[0] || x in xs[1..];
      if xs[0] <= rest then xs[0] else rest
  }

  /** `Series.max()` over the present values. */
  function MaxOf(xs: seq<real>): (m: real)
    requires |xs| > 0
    ensures m in xs && forall x :: x in xs ==> x <= m
  {
    if |xs| == 1 then xs[0]
    else
      var rest := MaxOf(xs[1..]);
      assert forall x :: x in xs ==> x == xs[0] || x in xs[1..];
      if xs[0] >= rest then xs[0] else rest
  }

  /** The present slopes of a table. */
  function DefinedSlopes(rows: seq<Row>): (r: seq<real>)
    ensures forall i :: 0 <= i < |rows| && rows[i].snap.slope.Some? ==> rows[i].snap.slope.value in r
    ensures |r| == 0 <==> forall i :: 0 <= i < |rows| ==> rows[i].snap.slope.None?
    ensures forall v :: v in r <==> exists i :: 0 <= i < |rows| && rows[i].snap.slope == Some(v)
  {
    var col := SlopeColumn(rows);
    var r := Technical.DropMissing(col);
    assert forall i :: 0 <= i < |rows| ==> col[i] == rows[i].snap.slope;
    assert forall v :: v in r ==> Some(v) in col;
    assert forall i :: 0 <= i < |rows| && col[i].Some? ==> col[i].value in r;
    assert |r| > 0 ==> Some(r[0]) in col;
    r
  }

  /** `(Slope - mn) / (mx - mn + 1e-9)`; a missing slope stays missing. */
  function SlopeNorm(slope: Option<real>, mn: real, mx: real): (r: Option<real>)
    requires mn <= mx
    ensures r.Some? <==> slope.Some?
    ensures r.Some? && mn <= slope.value <= mx ==> 0.0 <= r.value < 1.0
  {
    match slope
    case None => None
    case Some(s) =>
      var d := mx - mn + Epsilon;
      assert mn <= s <= mx ==> 0.0 <= (s - mn) / d < 1.0 by {
        if mn <= s <= mx { DivideBelowOne(s - mn, d); }
      }
      Some((s - mn) / d)
  }

  lemma DivideBelowOne(a: real, d: real)
    requires 0.0 <= a < d
    ensures 0.0 <= a / d < 1.0
  {
    assert a / d * d == a;
  }

  /** `(Slope / Close) * 252 * 100`, missing when either is missing or the close is zero. */
  function AnnualizedReturn(slope: Option<real>, close: Option<real>): (r: Option<real>)
    ensures r.Some? <==> slope.Some? && close.Some? && close.value != 0.0
    ensures r.Some? ==> r.value * close.value == slope.value * 25200.0
  {
    if slope.Some? && close.Some? && close.value != 0.0 then
      var q := slope.value / close.value;
      assert q * close.value == slope.value;
      Some(q * 252.0 * 100.0)
    else None
  }

  /** A strict row with its derived columns. */
  datatype Scored = Scored(row: Row, slopeNorm: Option<real>, slopeAnnualizedReturn: Option<real>)
  {
    /** `0.6 * SlopeNorm.fillna(0) + 0.4 * FinancialScore.fillna(0)`. */
    function FinalScore(): (s: real)
      ensures slopeNorm.None? ==> s == 0.4 * row.FinancialScore()
      ensures (slopeNorm.Some? ==> 0.0 <= slopeNorm.value < 1.0) ==> 0.0 <= s < 1.0
      ensures (slopeNorm.Some? ==> 0.0 <= slopeNorm.value < 1.0) && row.FinancialScore() == 1.0 ==>
        0.4 <= s < 1.0
    {
      0.6 * slopeNorm.GetOr(0.0) + 0.4 * row.FinancialScore()
    }
  }

  /**
   * The derived columns of the strict table. The range of the slopes is taken over the strict
   * rows only; a row without a slope has no SlopeNorm.
   */
  function Scores(strict: seq<Row>): (r: seq<Scored>)
    ensures |r| == |strict|
    ensures forall i :: 0 <= i < |r| ==> r[i].row == strict[i]
    ensures forall i :: 0 <= i < |r| ==> (r[i].slopeNorm.Some? <==> strict[i].snap.slope.Some?)
    ensures forall i :: 0 <= i < |r| && r[i].slopeNorm.Some? ==> 0.0 <= r[i].slopeNorm.value < 1.0
    ensures forall i :: 0 <= i < |r| ==>
      r[i].slopeAnnualizedReturn == AnnualizedReturn(strict[i].snap.slope, strict[i].snap.bar.close)
  {
    var defined := DefinedSlopes(strict);
    if |defined| > 0 then
      var mn := MinOf(defined);
      var mx := MaxOf(defined);
      seq(|strict|, i requires 0 <= i < |strict| =>
        Scored(strict[i], SlopeNorm(strict[i].snap.slope, mn, mx),
               AnnualizedReturn(strict[i].snap.slope, strict[i].snap.bar.close)))
    else
      seq(|strict|, i requires 0 <= i < |strict| =>
        Scored(strict[i], None, AnnualizedReturn(strict[i].snap.slope, strict[i].snap.bar.close)))
  }

  /** The SlopeNorm of one strict row, against the range of the present slopes. */
  lemma ScoresAt(strict: seq<Row>, i: nat)
    requires i < |strict| && strict[i].snap.slope.Some?
    ensures |DefinedSlopes(strict)| > 0
    ensures Scores(strict)[i].slopeNorm ==
      SlopeNorm(strict[i].snap.slope, MinOf(DefinedSlopes(strict)), MaxOf(DefinedSlopes(strict)))
  {
  }

  /** SlopeNorm keeps the order of the slopes: a larger slope never gets a smaller norm. */
  lemma SlopeNormMonotone(strict: seq<Row>, i: nat, j: nat)
    requires i < |strict| && j < |strict|
    requires strict[i].snap.slope.Some? && strict[j].snap.slope.Some?
    requires strict[i].snap.slope.value <= strict[j].snap.slope.value
    ensures Scores(strict)[i].slopeNorm.value <= Scores(strict)[j].slopeNorm.value
  {
    ScoresAt(strict, i);
    ScoresAt(strict, j);
    var defined := DefinedSlopes(strict);
    NormMonotone(strict[i].snap.slope.value, strict[j].snap.slope.value, MinOf(defined), MaxOf(defined));
  }

  lemma NormMonotone(a: real, b: real, mn: real, mx: real)
    requires a <= b && mn <= mx
    ensures SlopeNorm(Some(a), mn, mx).value <= SlopeNorm(Some(b), mn, mx).value
  {
    var d := mx - mn + Epsilon;
    assert (b - mn) / d - (a - mn) / d == (b - a) / d;
  }

  /** The strict row with the smallest slope gets SlopeNorm 0. */
  lemma SlopeNormOfLowest(strict: seq<Row>, i: nat)
    requires i < |strict| && strict[i].snap.slope.Some?
    requires forall j :: 0 <= j < |strict| && strict[j].snap.slope.Some? ==>
      strict[i].snap.slope.value <= strict[j].snap.slope.value
    ensures Scores(strict)[i].slopeNorm == Some(0.0)
  {
    ScoresAt(strict, i);
    var defined := DefinedSlopes(strict);
    var mn := MinOf(defined);
    var k := MinIndex(strict, mn);
    assert mn == strict[i].snap.slope.value;
    NormAtMinimum(mn, MaxOf(defined));
  }

  lemma NormAtMinimum(mn: real, mx: real)
    requires mn <= mx
    ensures SlopeNorm(Some(mn), mn, mx) == Some(0.0)
  {
    assert (mn - mn) / (mx - mn + Epsilon) == 0.0;
  }

  /** A present slope value belongs to some row. */
  lemma MinIndex(strict: seq<Row>, v: real) returns (k: nat)
    requires v in DefinedSlopes(strict)
    ensures k < |strict| && strict[k].snap.slope == Some(v)
  {
    var col := SlopeColumn(strict);
    assert Some(v) in col;
    k :| 0 <= k < |strict| && col[k] == Some(v);
  }

  /**
   * When all present slopes are equal (in particular for a single strict row) every SlopeNorm
   * is 0, so the final score is 0.4 times the financial score.
   */
  lemma FlatSlopesScoreZero(strict: seq<Row>)
    requires forall i, j ::
      (0 <= i < |strict| && 0 <= j < |strict| && strict[i].snap.slope.Some? && strict[j].snap.slope.Some?) ==>
      strict[i].snap.slope.value == strict[j].snap.slope.value
    ensures forall i :: 0 <= i < |strict| ==> Scores(strict)[i].slopeNorm.GetOr(0.0) == 0.0
  {
    var defined := DefinedSlopes(strict);
    if |defined| > 0 {
      var mn := MinOf(defined);
      var k := MinIndex(strict, mn);
      forall i | 0 <= i < |strict| && strict[i].snap.slope.Some?
        ensures Scores(strict)[i].slopeNorm == Some(0.0)
      {
        ScoresAt(strict, i);
        NormAtMinimum(mn, MaxOf(defined));
        assert strict[i].snap.slope.value == mn;
      }
    }
  }

  /** "FinalScore is at least as large as its successor". */
  predicate ScoreGe(a: Scored, b: Scored)
  {
    a.FinalScore() >= b.FinalScore()
  }

  lemma ScoreGeTotalPreorder()
    ensures Sorting.TotalPreorder(ScoreGe)
  {
  }

  /**
   * The `strict` table `compute_all` returns: the strict rows with their derived columns,
   * ordered by FinalScore, highest first. Every final score lies in [0.4, 1).
   */
  function Ranked(snapshot: seq<Row>): (r: seq<Scored>)
    ensures multiset(r) == multiset(Scores(Strict(snapshot)))
    ensures Sorting.SortedBy(r, ScoreGe)
    ensures forall x :: x in r ==> x.row in snapshot && PassesStrict(x.row)
    ensures forall x :: x in r ==> 0.4 <= x.FinalScore() < 1.0
  {
    var strict := Strict(snapshot);
    var scored := Scores(strict);
    ScoreGeTotalPreorder();
    Sorting.SortBySorted(scored, ScoreGe);
    var r := Sorting.SortBy(scored, ScoreGe);
    forall x | x in r
      ensures x.row in snapshot && PassesStrict(x.row) && 0.4 <= x.FinalScore() < 1.0
    {
      assert x in multiset(scored);
      var i :| 0 <= i < |scored| && scored[i] == x;
      assert x.row == strict[i] && strict[i] in strict;
    }
    r
  }

  /** `strict_df[strict_df["FinalScore"] >= min_score]`. */
  function AtLeast(table: seq<Scored>, minScore: real): (r: seq<Scored>)
    ensures forall x :: x in r <==> x in table && x.FinalScore() >= minScore
  {
    Seqs.Filter(table, (x: Scored) => x.FinalScore() >= minScore)
  }

  /** The view of a concatenation is the concatenation of the views: order and repeats are kept. */
  lemma AtLeastAppend(table: seq<Scored>, more: seq<Scored>, minScore: real)
    ensures AtLeast(table + more, minScore) == AtLeast(table, minScore) + AtLeast(more, minScore)
  {
    Seqs.FilterAppend(table, more, (x: Scored) => x.FinalScore() >= minScore);
  }

  /** Appending one row appends it to the view exactly when it reaches `minScore`. */
  lemma AtLeastSnoc(table: seq<Scored>, x: Scored, minScore: real)
    ensures AtLeast(table + [x], minScore) == AtLeast(table, minScore) + (if x.FinalScore() >= minScore then [x] else [])
  {
    AtLeastAppend(table, [x], minScore);
    Seqs.FilterOne(x, (y: Scored) => y.FinalScore() >= minScore);
  }

  /** The minimum-score view keeps the ranking order. */
  lemma {:induction false} AtLeastKeepsOrder(table: seq<Scored>, minScore: real)
    requires Sorting.SortedBy(table, ScoreGe)
    ensures Sorting.SortedBy(AtLeast(table, minScore), ScoreGe)
    decreases |table|
  {
    if table != [] {
      var n := |table| - 1;
      var init := table[..n];
      AtLeastKeepsOrder(init, minScore);
      assert table == init + [table[n]];
      assert AtLeast(table, minScore) ==
        AtLeast(init, minScore) + (if table[n].FinalScore() >= minScore then [table[n]] else []);
      forall y | y in AtLeast(init, minScore)
        ensures ScoreGe(y, table[n])
      {
        var j :| 0 <= j < n && init[j] == y;
        assert table[j] == y;
      }
    }
  }

  /**
   * On the ranked table, a minimum of at most 0.4 (the slider's default 0.0 included)
   * shows every row, and the slider's maximum 1.0 shows none.
   */
  lemma {:induction false} AtLeastOnRanked(snapshot: seq<Row>, minScore: real)
    ensures minScore <= 0.4 ==> AtLeast(Ranked(snapshot), minScore) == Ranked(snapshot)
    ensures minScore >= 1.0 ==> AtLeast(Ranked(snapshot), minScore) == []
  {
    var r := Ranked(snapshot);
    if minScore <= 0.4 {
      KeepsAll(r, minScore);
    }
    if minScore >= 1.0 {
      KeepsNone(r, minScore);
    }
  }

  lemma {:induction false} KeepsNone(table: seq<Scored>, minScore: real)
    requires forall x :: x in table ==> x.FinalScore() < minScore
    ensures AtLeast(table, minScore) == []
    decreases |table|
  {
    if table != [] {
      var n := |table| - 1;
      assert forall x :: x in table[..n] ==> x in table;
      KeepsNone(table[..n], minScore);
      assert table == table[..n] + [table[n]];
    }
  }

  lemma {:induction false} KeepsAll(table: seq<Scored>, minScore: real)
    requires forall x :: x in table ==> x.FinalScore() >= minScore
    ensures AtLeast(table, minScore) == table
    decreases |table|
  {
    if table != [] {
      var n := |table| - 1;
      assert forall x :: x in table[..n] ==> x in table;
      KeepsAll(table[..n], minScore);
      assert table == table[..n] + [table[n]];
    }
  }

  /** The price frame `fetch_prices` returns. */
  function FetchedPrices(tickers: seq<string>, batchSize: nat, download: seq<string> -> Option<Prices.Frame>): seq<Prices.Bar>
    requires batchSize > 0
  {
    Sorting.SortBy(Prices.Gathered(Batching.Batches(tickers, batchSize), download), Prices.TickerDateLe)
  }

  /**
   * `compute_all`: the snapshot of every ticker with prices merged with its fundamentals,
   * and the ranked strict table. With no prices both results are the column-less
   * `pd.DataFrame()`, written `None`.
   */
  method ComputeAll(tickers: seq<string>, batchSize: nat, download: seq<string> -> Option<Prices.Frame>,
                    fetch: string -> Fundamentals.Statements)
    returns (strict: Option<seq<Scored>>, snapshot: Option<seq<Row>>)
    requires batchSize > 0
    ensures strict.None? <==> FetchedPrices(tickers, batchSize, download) == []
    ensures snapshot.None? <==> FetchedPrices(tickers, batchSize, download) == []
    ensures snapshot.Some? ==>
      snapshot.value == Snapshot(FetchedPrices(tickers, batchSize, download), Fundamentals.CollectedRows(tickers, fetch))
    ensures strict.Some? && snapshot.Some? ==> strict.value == Ranked(snapshot.value)
    ensures strict.Some? ==> Sorting.SortedBy(strict.value, ScoreGe)
    ensures strict.Some? && snapshot.Some? ==>
      forall x :: x in strict.value ==> x.row in snapshot.value && PassesStrict(x.row) && 0.4 <= x.FinalScore() < 1.0
  {
    var prices, _ := Prices.FetchPrices(tickers, batchSize, download);
    if |prices| == 0 {
      strict, snapshot := None, None;
      return;
    }
    var snaps := Technical.TechnicalSnapshot(prices);
    var frows := Fundamentals.CollectFundamentals(tickers, fetch);
    snapshot := Some(Merge(snaps, frows));
    strict := Some(Ranked(snapshot.value));
  }

  /**
   * Line 292 on the table `compute_all` returned: the rows with `FinalScore` at least
   * `minScore`, in table order. A column-less frame has no `FinalScore` column, so the
   * lookup raises `KeyError`, written `None`.
   */
  function MinScoreView(strict: Option<seq<Scored>>, minScore: real): (r: Option<seq<Scored>>)
    ensures r.None? <==> strict.None?
    ensures r.Some? ==> forall x :: x in r.value <==> x in strict.value && x.FinalScore() >= minScore
  {
    match strict
    case None => None
    case Some(table) => Some(AtLeast(table, minScore))
  }
}
