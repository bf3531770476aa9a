/** Price download: the batch assembly loop of `fetch_prices` and the final (Ticker, Date) sort. */
module Prices {
  import opened Wrappers
  import Seqs
  import Sorting
  import Lex
  import Batching

  /** One daily bar of one ticker; a missing (NaN) price is `None`. Dates are day numbers. */
  datatype Bar = Bar(ticker: string, date: int, high: Option<real>, low: Option<real>,
                     close: Option<real>, volume: Option<real>)

  /** One row of the provider's per-ticker frame, before the ticker column is added. */
  datatype DayBar = DayBar(date: int, high: Option<real>, low: Option<real>,
                           close: Option<real>, volume: Option<real>)

  /** A successful download of one batch: the per-ticker frames the provider returned. */
  type Frame = map<string, seq<DayBar>>

  /** A provider frame with the `Ticker` column set to `t`. */
  function Tagged(t: string, rows: seq<DayBar>): (r: seq<Bar>)
    ensures |r| == |rows|
    ensures forall i :: 0 <= i < |r| ==>
      r[i].ticker == t && r[i].date == rows[i].date && r[i].high == rows[i].high &&
      r[i].low == rows[i].low && r[i].close == rows[i].close && r[i].volume == rows[i].volume
  {
    seq(|rows|, i requires 0 <= i < |rows| =>
      Bar(t, rows[i].date, rows[i].high, rows[i].low, rows[i].close, rows[i].volume))
  }

  /**
   * The rows appended for one downloaded batch: every ticker of the batch that the frame holds
   * contributes its whole frame, tagged with its ticker; tickers missing from the frame are skipped.
   */
  function BatchRows(batch: seq<string>, data: Frame): (r: seq<Bar>)
    ensures forall x :: x in r ==> x.ticker in batch && x.ticker in data
    ensures forall x :: x in r <==> exists t :: t in batch && t in data && x in Tagged(t, data[t])
  {
    if batch == [] then []
    else
      var init := batch[..|batch| - 1];
      var t := batch[|batch| - 1];
      assert batch == init + [t];
      assert forall u :: u in batch <==> u in init || u == t;
      BatchRows(init, data) + (if t in data then Tagged(t, data[t]) else [])
  }

  /** All rows gathered from the requested batches; a failed download contributes nothing. */
  function Gathered(batches: seq<seq<string>>, download: seq<string> -> Option<Frame>): seq<Bar>
  {
    if batches == [] then []
    else
      var b := batches[|batches| - 1];
      Gathered(batches[..|batches| - 1], download) +
        match download(b)
        case None => []
        case Some(data) => BatchRows(b, data)
  }

  /** The `sort_values(["Ticker", "Date"])` order. */
  predicate TickerDateLe(a: Bar, b: Bar)
  {
    Lex.Less(a.ticker, b.ticker) || (a.ticker == b.ticker && a.date <= b.date)
  }

  lemma TickerDateTotalPreorder()
    ensures Sorting.TotalPreorder(TickerDateLe)
  {
    forall x, y
      ensures TickerDateLe(x, y) || TickerDateLe(y, x)
    {
      if x.ticker != y.ticker { Lex.LessTotal(x.ticker, y.ticker); }
    }
    forall x, y, z | TickerDateLe(x, y) && TickerDateLe(y, z)
      ensures TickerDateLe(x, z)
    {
      if Lex.Less(x.ticker, y.ticker) && Lex.Less(y.ticker, z.ticker) {
        Lex.LessTransitive(x.ticker, y.ticker, z.ticker);
      }
    }
  }

  /** Batch `k` downloaded and its frame holds row `x`. */
  predicate FromBatch(batches: seq<seq<string>>, download: seq<string> -> Option<Frame>, k: nat, x: Bar)
  {
    k < |batches| && download(batches[k]).Some? && x in BatchRows(batches[k], download(batches[k]).value)
  }

  lemma FromBatchPrefix(batches: seq<seq<string>>, download: seq<string> -> Option<Frame>, k: nat, x: Bar)
    requires k < |batches| - 1
    ensures FromBatch(batches[..|batches| - 1], download, k, x) == FromBatch(batches, download, k, x)
  {
    assert batches[..|batches| - 1][k] == batches[k];
  }

  /** A row is gathered exactly when its batch downloaded and the frame held it. */
  lemma GatheredFrom(batches: seq<seq<string>>, download: seq<string> -> Option<Frame>, x: Bar)
    ensures x in Gathered(batches, download) <==> exists k :: FromBatch(batches, download, k, x)
  {
    if x in Gathered(batches, download) {
      GatheredHasSource(batches, download, x);
    }
    forall k: nat | FromBatch(batches, download, k, x)
      ensures x in Gathered(batches, download)
    {
      SourceIsGathered(batches, download, k, x);
    }
  }

  lemma {:induction false} GatheredHasSource(batches: seq<seq<string>>, download: seq<string> -> Option<Frame>, x: Bar)
    requires x in Gathered(batches, download)
    ensures exists k :: FromBatch(batches, download, k, x)
    decreases |batches|
  {
    var n := |batches| - 1;
    var init := batches[..n];
    var tail := match download(batches[n]) case None => [] case Some(data) => BatchRows(batches[n], data);
    assert Gathered(batches, download) == Gathered(init, download) + tail;
    if x in Gathered(init, download) {
      GatheredHasSource(init, download, x);
      var k :| FromBatch(init, download, k, x);
      FromBatchPrefix(batches, download, k, x);
    } else {
      assert FromBatch(batches, download, n, x);
    }
  }

  lemma {:induction false} SourceIsGathered(batches: seq<seq<string>>, download: seq<string> -> Option<Frame>, k: nat, x: Bar)
    requires FromBatch(batches, download, k, x)
    ensures x in Gathered(batches, download)
    decreases |batches|
  {
    var n := |batches| - 1;
    var init := batches[..n];
    var tail := match download(batches[n]) case None => [] case Some(data) => BatchRows(batches[n], data);
    assert Gathered(batches, download) == Gathered(init, download) + tail;
    if k < n {
      FromBatchPrefix(batches, download, k, x);
      SourceIsGathered(init, download, k, x);
    } else {
      assert x in tail;
    }
  }

  /**
   * `fetch_prices`: downloads each batch once, in order, keeps the frames of the tickers the
   * response holds, and sorts the union by (Ticker, Date). `requested` records the batches
   * handed to the provider.
   */
  method FetchPrices(tickers: seq<string>, batchSize: nat, download: seq<string> -> Option<Frame>)
    returns (prices: seq<Bar>, requested: seq<seq<string>>)
    requires batchSize > 0
    ensures requested == Batching.Batches(tickers, batchSize)
    ensures prices == Sorting.SortBy(Gathered(requested, download), TickerDateLe)
    ensures Sorting.SortedBy(prices, TickerDateLe)
    ensures forall x :: x in prices ==> x.ticker in tickers
  {
    var batches := Batching.Chunk(tickers, batchSize);
    var allRows;
    allRows, requested := DownloadBatches(batches, download);
    if |allRows| == 0 {
      prices := [];
    } else {
      prices := Sorting.SortBy(allRows, TickerDateLe);
    }
    FetchedRows(tickers, batchSize, download);
  }

  /** The outer `for batch in chunk(...)` loop: one download per batch; a failed one is skipped. */
  method DownloadBatches(batches: seq<seq<string>>, download: seq<string> -> Option<Frame>)
    returns (allRows: seq<Bar>, requested: seq<seq<string>>)
    ensures requested == batches
    ensures allRows == Gathered(batches, download)
  {
    allRows := [];
    requested := [];
    var k := 0;
    while k < |batches|
      invariant 0 <= k <= |batches|
      invariant requested == batches[..k]
      invariant allRows == Gathered(batches[..k], download)
    {
      var batch := batches[k];
      GatheredSnoc(batches, k, download);
      assert batches[..k + 1] == batches[..k] + [batch];
      requested := requested + [batch];
      var response := download(batch);
      if response.Some? {
        allRows := AppendFrames(allRows, batch, response.value);
      }
      k := k + 1;
    }
    assert batches[..k] == batches;
  }

  /** The inner `for t in batch` loop: appends the frame of every ticker the response holds. */
  method AppendFrames(allRows: seq<Bar>, batch: seq<string>, data: Frame) returns (rows: seq<Bar>)
    ensures rows == allRows + BatchRows(batch, data)
  {
    rows := allRows;
    var m := 0;
    while m < |batch|
      invariant 0 <= m <= |batch|
      invariant rows == allRows + BatchRows(batch[..m], data)
    {
      var t := batch[m];
      BatchRowsSnoc(batch, m, data);
      if t in data {
        rows := rows + Tagged(t, data[t]);
      }
      m := m + 1;
    }
    assert batch[..m] == batch;
  }

  lemma GatheredSnoc(batches: seq<seq<string>>, k: nat, download: seq<string> -> Option<Frame>)
    requires k < |batches|
    ensures Gathered(batches[..k + 1], download) == Gathered(batches[..k], download) +
      match download(batches[k])
      case None => []
      case Some(data) => BatchRows(batches[k], data)
  {
    assert batches[..k + 1][..k] == batches[..k];
  }

  lemma BatchRowsSnoc(batch: seq<string>, m: nat, data: Frame)
    requires m < |batch|
    ensures BatchRows(batch[..m + 1], data) == BatchRows(batch[..m], data) +
      (if batch[m] in data then Tagged(batch[m], data[batch[m]]) else [])
  {
    assert batch[..m + 1][..m] == batch[..m];
  }

  /** The sorted union is ordered by (Ticker, Date) and holds only requested tickers. */
  lemma FetchedRows(tickers: seq<string>, batchSize: nat, download: seq<string> -> Option<Frame>)
    requires batchSize > 0
    ensures var prices := Sorting.SortBy(Gathered(Batching.Batches(tickers, batchSize), download), TickerDateLe);
      Sorting.SortedBy(prices, TickerDateLe) && forall x :: x in prices ==> x.ticker in tickers
  {
    var requested := Batching.Batches(tickers, batchSize);
    var prices := Sorting.SortBy(Gathered(requested, download), TickerDateLe);
    TickerDateTotalPreorder();
    Sorting.SortBySorted(Gathered(requested, download), TickerDateLe);
    forall x | x in prices
      ensures x.ticker in tickers
    {
      assert x in multiset(Gathered(requested, download));
      GatheredFrom(requested, download, x);
      var j :| FromBatch(requested, download, j, x);
      FlattenMember(requested, j, x.ticker);
    }
  }

  lemma {:induction false} FlattenMember<T>(ss: seq<seq<T>>, j: nat, x: T)
    requires j < |ss| && x in ss[j]
    ensures x in Seqs.Flatten(ss)
    decreases |ss|
  {
    var init := ss[..|ss| - 1];
    if j < |ss| - 1 {
      FlattenMember(init, j, x);
    }
  }
}
