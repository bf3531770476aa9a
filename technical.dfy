/**
 * Technical features of `compute_all`: per-ticker lagged higher-high / higher-low / trend
 * flags, the least-squares slope of the last 20 closes, and the latest-bar snapshot.
 */
module Technical {
  import opened Wrappers
  import Seqs
  import Sorting
  import Lex
  import Columns
  import Regression
  import opened Prices

  /** `SLOPE_WINDOW`: the number of trailing closes the slope is fitted to. */
  const SlopeWindow: nat := 20

  /** The last row before row `i` that belongs to ticker `sym`, if any. */
  function PrevSame(bars: seq<Bar>, sym: string, i: nat): (r: Option<nat>)
    requires i <= |bars|
    ensures r.Some? ==> r.value < i && bars[r.value].ticker == sym
    ensures r.Some? ==> forall j :: r.value < j < i ==> bars[j].ticker != sym
    ensures r.None? ==> forall j :: 0 <= j < i ==> bars[j].ticker != sym
  {
    if i == 0 then None
    else if bars[i - 1].ticker == sym then Some(i - 1)
    else PrevSame(bars, sym, i - 1)
  }

  /** The row that `groupby("Ticker").shift(lag)` reads for row `k`, if any. */
  function Shifted(bars: seq<Bar>, k: nat, lag: nat): (r: Option<nat>)
    requires k < |bars|
    ensures r.Some? ==> r.value <= k && bars[r.value].ticker == bars[k].ticker
  {
    if lag == 0 then Some(k)
    else
      match Shifted(bars, k, lag - 1)
      case None => None
      case Some(j) => PrevSame(bars, bars[k].ticker, j)
  }

  /** `High` shifted by `lag` within the ticker's group (NaN where there is no such row). */
  function ShiftedHigh(bars: seq<Bar>, k: nat, lag: nat): Option<real>
    requires k < |bars|
  {
    match Shifted(bars, k, lag)
    case None => None
    case Some(j) => bars[j].high
  }

  function ShiftedLow(bars: seq<Bar>, k: nat, lag: nat): Option<real>
    requires k < |bars|
  {
    match Shifted(bars, k, lag)
    case None => None
    case Some(j) => bars[j].low
  }

  /** The `HH` column at row `k`. */
  function HigherHigh(bars: seq<Bar>, k: nat): (r: int)
    requires k < |bars|
    ensures r == 0 || r == 1
  {
    Columns.AsInt(Columns.Greater(bars[k].high, ShiftedHigh(bars, k, 1)) &&
                  Columns.Greater(ShiftedHigh(bars, k, 1), ShiftedHigh(bars, k, 2)))
  }

  /** The `HL` column at row `k`. */
  function HigherLow(bars: seq<Bar>, k: nat): (r: int)
    requires k < |bars|
    ensures r == 0 || r == 1
  {
    Columns.AsInt(Columns.Greater(bars[k].low, ShiftedLow(bars, k, 1)) &&
                  Columns.Greater(ShiftedLow(bars, k, 1), ShiftedLow(bars, k, 2)))
  }

  /** The `Trend` column at row `k`. */
  function Trend(bars: seq<Bar>, k: nat): (r: int)
    requires k < |bars|
    ensures r == 0 || r == 1
  {
    Columns.AsInt(HigherHigh(bars, k) == 1 && HigherLow(bars, k) == 1)
  }

  /** The bars of ticker `sym`, in frame order: what `groupby("Ticker")` hands each group. */
  function Series(bars: seq<Bar>, sym: string): seq<Bar>
  {
    Seqs.Filter(bars, (b: Bar) => b.ticker == sym)
  }

  lemma SeriesSnoc(bars: seq<Bar>, sym: string, i: nat)
    requires i < |bars|
    ensures Series(bars[..i + 1], sym) ==
      Series(bars[..i], sym) + (if bars[i].ticker == sym then [bars[i]] else [])
  {
    assert bars[..i + 1][..i] == bars[..i];
  }

  /** Stepping back to the previous row of a ticker drops the last element of its series. */
  lemma {:induction false} PrevSameSeries(bars: seq<Bar>, sym: string, i: nat)
    requires i <= |bars|
    ensures match PrevSame(bars, sym, i)
      case None => Series(bars[..i], sym) == []
      case Some(j) => Series(bars[..i], sym) == Series(bars[..j], sym) + [bars[j]]
  {
    if i > 0 {
      SeriesSnoc(bars, sym, i - 1);
      if bars[i - 1].ticker != sym {
        PrevSameSeries(bars, sym, i - 1);
      }
    }
  }

  /** The row one step back is the previous element of the ticker's series so far. */
  lemma ShiftedOnceOnSeries(bars: seq<Bar>, k: nat)
    requires k < |bars|
    ensures var s := Series(bars[..k + 1], bars[k].ticker);
      && |s| >= 1 && s[|s| - 1] == bars[k]
      && (Shifted(bars, k, 1).Some? <==> |s| >= 2)
      && (Shifted(bars, k, 1).Some? ==> s[..|s| - 1] == Series(bars[..Shifted(bars, k, 1).value + 1], bars[k].ticker))
  {
    var sym := bars[k].ticker;
    SeriesSnoc(bars, sym, k);
    PrevSameSeries(bars, sym, k);
    var s := Series(bars[..k + 1], sym);
    var p := Series(bars[..k], sym);
    assert s == p + [bars[k]];
    assert s[..|s| - 1] == p;
    assert Shifted(bars, k, 1) == PrevSame(bars, sym, k);
    match PrevSame(bars, sym, k)
    case None =>
    case Some(j) =>
      SeriesSnoc(bars, sym, j);
  }

  /** The row one step back is the second-to-last element of the ticker's series so far. */
  lemma ShiftedOnceIndex(bars: seq<Bar>, k: nat)
    requires k < |bars|
    ensures var s := Series(bars[..k + 1], bars[k].ticker);
      Shifted(bars, k, 1).Some? ==> |s| >= 2 && s[|s| - 2] == bars[Shifted(bars, k, 1).value]
  {
    ShiftedOnceOnSeries(bars, k);
    if Shifted(bars, k, 1).Some? {
      var j := Shifted(bars, k, 1).value;
      ShiftedOnceOnSeries(bars, j);
      var s := Series(bars[..k + 1], bars[k].ticker);
      var s' := Series(bars[..j + 1], bars[k].ticker);
      assert s[..|s| - 1] == s';
      assert s[|s| - 2] == s'[|s'| - 1];
    }
  }

  /** The row two steps back is the third-to-last element of the ticker's series so far. */
  lemma ShiftedTwiceOnSeries(bars: seq<Bar>, k: nat)
    requires k < |bars|
    ensures var s := Series(bars[..k + 1], bars[k].ticker);
      && (Shifted(bars, k, 2).Some? <==> |s| >= 3)
      && (Shifted(bars, k, 2).Some? ==> s[|s| - 3] == bars[Shifted(bars, k, 2).value])
  {
    ShiftedOnceOnSeries(bars, k);
    if Shifted(bars, k, 1).Some? {
      var j := Shifted(bars, k, 1).value;
      assert Shifted(bars, k, 2) == Shifted(bars, j, 1);
      ShiftedOnceOnSeries(bars, j);
      ShiftedOnceIndex(bars, j);
      var s := Series(bars[..k + 1], bars[k].ticker);
      var s' := Series(bars[..j + 1], bars[k].ticker);
      assert s[..|s| - 1] == s';
      if |s| >= 3 {
        assert s[|s| - 3] == s'[|s'| - 2];
      }
    }
  }

  /** The rows one and two steps back are the previous two elements of the ticker's series so far. */
  lemma ShiftedRowsOnSeries(bars: seq<Bar>, k: nat)
    requires k < |bars|
    ensures var s := Series(bars[..k + 1], bars[k].ticker);
      && |s| >= 1 && s[|s| - 1] == bars[k]
      && (Shifted(bars, k, 1).Some? <==> |s| >= 2)
      && (Shifted(bars, k, 1).Some? ==> s[|s| - 2] == bars[Shifted(bars, k, 1).value])
      && (Shifted(bars, k, 2).Some? <==> |s| >= 3)
      && (Shifted(bars, k, 2).Some? ==> s[|s| - 3] == bars[Shifted(bars, k, 2).value])
  {
    ShiftedOnceOnSeries(bars, k);
    ShiftedOnceIndex(bars, k);
    ShiftedTwiceOnSeries(bars, k);
  }

  lemma ShiftsOnSeries(bars: seq<Bar>, k: nat)
    requires k < |bars|
    ensures var s := Series(bars[..k + 1], bars[k].ticker);
      && |s| >= 1 && s[|s| - 1] == bars[k]
      && ShiftedHigh(bars, k, 1) == (if |s| >= 2 then s[|s| - 2].high else None)
      && ShiftedLow(bars, k, 1) == (if |s| >= 2 then s[|s| - 2].low else None)
      && ShiftedHigh(bars, k, 2) == (if |s| >= 3 then s[|s| - 3].high else None)
      && ShiftedLow(bars, k, 2) == (if |s| >= 3 then s[|s| - 3].low else None)
  {
    ShiftedRowsOnSeries(bars, k);
  }

  /**
   * On the ticker's series s up to and including row k (so s ends with bars[k]): `HH` is 1
   * iff s has three elements at the end with strictly rising highs, `HL` likewise on lows,
   * and `Trend` iff both. At a ticker's first two bars all three are 0.
   */
  lemma TrendFlagsOnSeries(bars: seq<Bar>, k: nat)
    requires k < |bars|
    ensures var s := Series(bars[..k + 1], bars[k].ticker); var t := |s| - 1;
      && t >= 0 && s[t] == bars[k]
      && (HigherHigh(bars, k) == 1 <==>
            t >= 2 && Columns.Greater(s[t].high, s[t - 1].high) && Columns.Greater(s[t - 1].high, s[t - 2].high))
      && (HigherLow(bars, k) == 1 <==>
            t >= 2 && Columns.Greater(s[t].low, s[t - 1].low) && Columns.Greater(s[t - 1].low, s[t - 2].low))
      && (Trend(bars, k) == 1 <==> HigherHigh(bars, k) == 1 && HigherLow(bars, k) == 1)
      && (t < 2 ==> HigherHigh(bars, k) == 0 && HigherLow(bars, k) == 0 && Trend(bars, k) == 0)
  {
    ShiftsOnSeries(bars, k);
  }

  /** The close column of a series. */
  function Closes(series: seq<Bar>): (r: seq<Option<real>>)
    ensures |r| == |series| && forall i :: 0 <= i < |r| ==> r[i] == series[i].close
  {
    seq(|series|, i requires 0 <= i < |series| => series[i].close)
  }

  /** `dropna()`: the present values, in order. */
  function DropMissing(xs: seq<Option<real>>): (r: seq<real>)
    ensures |r| <= |xs|
    ensures forall x :: x in r <==> Some(x) in xs
  {
    if xs == [] then []
    else
      var rest := DropMissing(xs[..|xs| - 1]);
      assert xs == xs[..|xs| - 1] + [xs[|xs| - 1]];
      match xs[|xs| - 1]
      case None => rest
      case Some(x) => rest + [x]
  }

  /** `dropna()` works value by value: it keeps the order and multiplicity of the present values. */
  lemma {:induction false} DropMissingAppend(a: seq<Option<real>>, b: seq<Option<real>>)
    ensures DropMissing(a + b) == DropMissing(a) + DropMissing(b)
    decreases |b|
  {
    if b == [] {
      assert a + b == a;
    } else {
      var init := b[..|b| - 1];
      var ab := a + b;
      assert ab[..|ab| - 1] == a + init;
      assert ab[|ab| - 1] == b[|b| - 1];
      DropMissingAppend(a, init);
      var tail := match b[|b| - 1] case None => [] case Some(x) => [x];
      assert DropMissing(ab) == DropMissing(a + init) + tail;
      assert DropMissing(b) == DropMissing(init) + tail;
      Seqs.AppendAssoc(DropMissing(a), DropMissing(init), tail);
    }
  }

  /** A missing value is dropped and a present one is kept. */
  lemma DropMissingOne(x: real)
    ensures DropMissing([None]) == [] && DropMissing([Some(x)]) == [x]
  {
  }

  lemma OlsMinimal(w: seq<real>)
    requires |w| >= 2
    ensures forall a, b :: Regression.SquaredError(w, Regression.OlsIntercept(w), Regression.OlsSlope(w)) <=
                           Regression.SquaredError(w, a, b)
  {
    forall a, b
      ensures Regression.SquaredError(w, Regression.OlsIntercept(w), Regression.OlsSlope(w)) <=
              Regression.SquaredError(w, a, b)
    {
      Regression.OlsMinimisesSquaredError(w, a, b);
    }
  }

  /** The last `SlopeWindow` present closes, once there are that many. */
  function Window(closes: seq<Option<real>>): (w: seq<real>)
    requires |DropMissing(closes)| >= SlopeWindow
    ensures |w| == SlopeWindow
  {
    var clean := DropMissing(closes);
    clean[|clean| - SlopeWindow..]
  }

  /**
   * `slope_fn`: missing when fewer than 20 closes are present; otherwise the slope of the
   * least-squares line through the last 20 present closes against the indices 0..19.
   */
  function Slope(closes: seq<Option<real>>): (r: Option<real>)
    ensures r.Some? <==> |DropMissing(closes)| >= SlopeWindow
    ensures r.Some? ==> exists a :: forall a', b' ::
      Regression.SquaredError(Window(closes), a, r.value) <= Regression.SquaredError(Window(closes), a', b')
  {
    var clean := DropMissing(closes);
    if |clean| < SlopeWindow then None
    else
      var w := Window(closes);
      OlsMinimal(w);
      var a := Regression.OlsIntercept(w);
      assert forall a', b' ::
        Regression.SquaredError(w, a, Regression.OlsSlope(w)) <= Regression.SquaredError(w, a', b');
      Some(Regression.OlsSlope(w))
  }

  /** If the window lies on a line a + b·i, the slope is exactly b. */
  lemma SlopeOnLine(closes: seq<Option<real>>, a: real, b: real)
    requires |DropMissing(closes)| >= SlopeWindow
    requires forall i :: 0 <= i < SlopeWindow ==> Window(closes)[i] == a + b * (i as real)
    ensures Slope(closes) == Some(b)
  {
    Regression.OlsExactOnLine(Window(closes), a, b);
  }

  /** Closes 1, 2, ..., 20 give slope 1. */
  lemma SlopeOfOneToTwenty()
    ensures Slope(seq(20, i => Some((i + 1) as real))) == Some(1.0)
  {
    var closes := seq(20, i => Some((i + 1) as real));
    DropAllPresent(closes);
    SlopeOnLine(closes, 1.0, 1.0);
  }

  lemma {:induction false} DropAllPresent(xs: seq<Option<real>>)
    requires forall i :: 0 <= i < |xs| ==> xs[i].Some?
    ensures |DropMissing(xs)| == |xs|
    ensures forall i :: 0 <= i < |xs| ==> DropMissing(xs)[i] == xs[i].value
  {
    if xs != [] {
      DropAllPresent(xs[..|xs| - 1]);
    }
  }

  /** The per-ticker `Slope` column: `groupby("Ticker")["Close"].apply(slope_fn)`. */
  function TickerSlope(bars: seq<Bar>, sym: string): Option<real>
  {
    Slope(Closes(Series(bars, sym)))
  }

  /** One row of the technical snapshot: a ticker's latest bar with its flags and slope. */
  datatype Snap = Snap(bar: Bar, hh: int, hl: int, trend: int, slope: Option<real>)

  /** The `Ticker` column. */
  function TickerColumn(bars: seq<Bar>): (r: seq<string>)
    ensures |r| == |bars| && forall i :: 0 <= i < |r| ==> r[i] == bars[i].ticker
  {
    seq(|bars|, i requires 0 <= i < |bars| => bars[i].ticker)
  }

  /** Some bar belongs to ticker `sym`. */
  predicate HasTicker(bars: seq<Bar>, sym: string)
  {
    sym in TickerColumn(bars)
  }

  /** The tickers with any bar, each once, in order of first appearance. */
  function Tickers(bars: seq<Bar>): (r: seq<string>)
    ensures Seqs.Distinct(r)
    ensures forall t :: t in r <==> HasTicker(bars, t)
  {
    Seqs.Dedup(TickerColumn(bars))
  }

  /** The row `groupby("Ticker").tail(1)` keeps for `sym`: its last row. */
  function LatestIndex(bars: seq<Bar>, sym: string): (k: nat)
    requires HasTicker(bars, sym)
    ensures k < |bars| && bars[k].ticker == sym
    ensures forall j :: k < j < |bars| ==> bars[j].ticker != sym
  {
    var col := TickerColumn(bars);
    var i :| 0 <= i < |col| && col[i] == sym;
    assert bars[i].ticker == sym;
    PrevSame(bars, sym, |bars|).value
  }

  function SnapOf(bars: seq<Bar>, sym: string): Snap
    requires HasTicker(bars, sym)
  {
    var k := LatestIndex(bars, sym);
    Snap(bars[k], HigherHigh(bars, k), HigherLow(bars, k), Trend(bars, k), TickerSlope(bars, sym))
  }

  /** `latest.merge(slopes, on="Ticker", how="left")`: one row per ticker. */
  function TechnicalSnapshot(bars: seq<Bar>): (r: seq<Snap>)
    ensures |r| == |Tickers(bars)|
    ensures forall i :: 0 <= i < |r| ==> r[i] == SnapOf(bars, Tickers(bars)[i])
  {
    var ts := Tickers(bars);
    seq(|ts|, i requires 0 <= i < |ts| => SnapOf(bars, ts[i]))
  }

  /**
   * The snapshot holds exactly one row per ticker with bars, and that row is the ticker's
   * last bar; on a frame sorted by (Ticker, Date) it is the ticker's latest-dated bar.
   */
  lemma SnapshotIsLatestPerTicker(bars: seq<Bar>)
    ensures var r := TechnicalSnapshot(bars);
      && (forall i, j :: 0 <= i < j < |r| ==> r[i].bar.ticker != r[j].bar.ticker)
      && (forall t :: HasTicker(bars, t) <==> exists i :: 0 <= i < |r| && r[i].bar.ticker == t)
      && (forall i :: 0 <= i < |r| ==> r[i].bar in bars && r[i].slope == TickerSlope(bars, r[i].bar.ticker))
      && (Sorting.SortedBy(bars, TickerDateLe) ==>
            forall i, j :: 0 <= i < |r| && 0 <= j < |bars| && bars[j].ticker == r[i].bar.ticker ==>
              bars[j].date <= r[i].bar.date)
  {
    var r := TechnicalSnapshot(bars);
    var ts := Tickers(bars);
    assert forall i :: 0 <= i < |r| ==> r[i].bar.ticker == ts[i];
    forall t | HasTicker(bars, t)
      ensures exists i :: 0 <= i < |r| && r[i].bar.ticker == t
    {
      var i :| 0 <= i < |ts| && ts[i] == t;
      assert r[i].bar.ticker == t;
    }
    if Sorting.SortedBy(bars, TickerDateLe) {
      LatestIsLatestDated(bars);
    }
  }

  /** On a frame sorted by (Ticker, Date) a ticker's last row has its latest date. */
  lemma LatestIsLatestDated(bars: seq<Bar>)
    requires Sorting.SortedBy(bars, TickerDateLe)
    ensures forall sym, j :: HasTicker(bars, sym) && 0 <= j < |bars| && bars[j].ticker == sym ==>
      bars[j].date <= bars[LatestIndex(bars, sym)].date
  {
    forall sym, j | HasTicker(bars, sym) && 0 <= j < |bars| && bars[j].ticker == sym
      ensures bars[j].date <= bars[LatestIndex(bars, sym)].date
    {
      var k := LatestIndex(bars, sym);
      if j != k {
        assert j < k;
        assert TickerDateLe(bars[j], bars[k]);
        Lex.LessIrreflexive(sym);
      }
    }
  }
}
