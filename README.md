# Trend + Fundamentals scoring pipeline, in Dafny

This project models the scoring pipeline of the "Trend + Financial Momentum" dashboard
(`app.py`). The pipeline does the following:

1. It builds a ticker universe from an embedded index list.
2. It downloads daily bars in batches and sorts them by (Ticker, Date).
3. Per ticker it derives:
   - higher-high, higher-low and trend flags from the lagged highs and lows;
   - an ordinary-least-squares slope over the last 20 present closes;
   - the latest bar.
4. It collects two periods of income and cash-flow statements per symbol and turns them into
   three 0/1 growth flags and their mean, `FinancialScore`.
5. It keeps the strict rows, those with growth on all three statements.
6. For those rows it min-max normalises the slope (with a 1e-9 guard), computes the annualized
   return and `FinalScore`, and ranks by `FinalScore`, highest first.
7. The display applies a minimum-score filter.

Modelling choices:
- Prices and statement values are exact `real`s.
- A pandas NaN, or a field missing from a JSON record, is `Option.None`.
- Both data providers are parameters of the model:
  - the price download is a function from a batch of symbols to an optional frame (`None` is a
    download that raised);
  - the statement fetch is a function from a symbol to its two statement lists.
- The sklearn regression is the closed-form OLS slope `Σ(i−ī)(y−ȳ) / Σ(i−ī)²` over the indices
  0..19.
- Python string order is code-point lexicographic order (`Lex.Less`).
- pandas `sort_values` is modelled by a generic insertion sort (`Sorting.SortBy`), proved to give a
  permutation and a sorted result for any total preorder.

Modules, one per file:
- `Wrappers`: `Option`.
- `Seqs`: filter, flatten, dedup, distinctness.
- `Sorting`: generic sort.
- `Lex`: string order.
- `Columns`: NaN-aware comparison and `astype(int)`.
- `Universe`: `load_index_tickers`.
- `Batching`: `chunk`.
- `Prices`: `fetch_prices`.
- `Regression`: the OLS closed form.
- `Technical`: shifts, flags, slope and latest-bar snapshot.
- `Fundamentals`: `frows` and the growth flags.
- `Scoring`: the merged snapshot, the strict filter, the scores, the ranking, the minimum-score view and `compute_all`.

Loops in the source stay loops in the model. `Batching.Chunk`, `Prices.DownloadBatches`,
`Prices.AppendFrames` and `Fundamentals.CollectFundamentals` are methods with `while` loops.
Each is proved equal to a function (`Batches`, `Gathered`, `BatchRows`, `CollectedRows`), and
the properties are proved about those functions.

## Model

| member | source | states |
|---|---|---|
| Universe.Normalize | app.py:105 | `sorted(list(set(xs)))` is strictly ascending, so it has no duplicates, and holds exactly the strings of `xs` |
| Universe.LoadIndexTickers | app.py:35-105 | the universe is strictly ascending and its elements are exactly the strings of the embedded list |
| Universe.AscendingDistinct | app.py:105 | a strictly ascending list has no repeated element |
| Universe.UniverseDistinct | app.py:35-105 | the universe lists every symbol once |
| Seqs.Dedup | app.py:105 | `set(...)`: the same elements, each once |
| Seqs.DistinctPermutation | app.py:105 | a permutation of a duplicate-free list is duplicate-free |
| Lex.Less | app.py:105 | Python's `<` on strings: a proper prefix is smaller, otherwise the first differing character decides |
| Lex.Leq | app.py:105 | Python's `<=` on strings: equal or smaller |
| Lex.LessTransitive | app.py:105 | Python's string `<` is transitive |
| Lex.LessTotal | app.py:105 | two different strings are ordered one way or the other |
| Lex.LessIrreflexive | app.py:105 | no string is smaller than itself |
| Lex.LeqTotalPreorder | app.py:105 | string `<=` is a total preorder, which is what `sorted` needs |
| Sorting.SortBy | app.py:105 | sorting returns a permutation of its input (same multiset) |
| Sorting.SortBySorted | app.py:147 | for a total preorder, the sorted result is ordered by it |
| Sorting.InsertSorted | app.py:147 | inserting into a sorted list keeps it sorted |
| Batching.Batches | app.py:114-116 | concatenating the batches gives back `lst`; every batch is non-empty with at most `n` elements; every batch but the last has exactly `n` |
| Batching.BatchesStep | app.py:115-116 | the batches from offset `i` are `lst[i:i+n]` followed by the batches from `i+n` |
| Batching.Chunk | app.py:114-116 | the `range(0, len(lst), n)` loop yields exactly `Batches(lst, n)`; the concatenation, non-empty, at-most-`n` and exactly-`n`-but-last facts |
| Seqs.FilterAppend | app.py:292 | filtering a concatenation is the concatenation of the filtered parts |
| Seqs.FilterOne | app.py:292 | a one-element list is kept exactly when its element passes |
| Seqs.FlattenSnoc | app.py:114-116 | flattening after appending a batch appends its elements |
| Seqs.FlattenCons | app.py:114-116 | flattening after prepending a batch prepends its elements |
| Prices.Tagged | app.py:136-138 | a provider frame with `Ticker` set to `t`: same length, and every row keeps its date and prices |
| Prices.BatchRows | app.py:134-140 | a row is appended for a batch iff it is a row of the tagged frame of some ticker that is in both the batch and the response; rows come only from such tickers |
| Prices.Gathered | app.py:123-140 | the rows of every batch that downloaded, batch after batch; a failed batch adds nothing (characterised by `GatheredFrom`) |
| Prices.TickerDateLe | app.py:147 | the `sort_values(["Ticker","Date"])` order: ticker first, then date (proved a total preorder by `TickerDateTotalPreorder`) |
| Prices.AppendFrames | app.py:134-140 | the inner loop appends `BatchRows(batch, data)` to the rows gathered so far |
| Prices.DownloadBatches | app.py:123-140 | the outer loop requests each batch once, in order, and gathers exactly `Gathered(batches, download)`; a failed download adds nothing and is not retried |
| Prices.GatheredFrom | app.py:123-140 | a row is gathered iff some batch downloaded and its frame held that row |
| Prices.TickerDateTotalPreorder | app.py:147 | the (Ticker, Date) order is a total preorder |
| Prices.FetchPrices | app.py:119-148 | the requested batches are `chunk(tickers, batch_size)`; the result is the gathered rows sorted by (Ticker, Date); it is sorted and holds only requested tickers; no rows gives the empty frame |
| Prices.FetchedRows | app.py:142-147 | the sorted union is ordered by (Ticker, Date) and every row's ticker was requested |
| Technical.PrevSame | app.py:185-188 | the previous row of the same ticker: a row of that ticker earlier in the frame with none of that ticker between; `None` iff there is no earlier row of that ticker |
| Technical.ShiftedHigh | app.py:185-186 | the `High` value `shift(lag)` reads within the ticker's group, NaN where there is no such row (characterised by `ShiftsOnSeries`) |
| Technical.ShiftedLow | app.py:187-188 | the `Low` value `shift(lag)` reads within the ticker's group, NaN where there is no such row (characterised by `ShiftsOnSeries`) |
| Technical.Series | app.py:185-188 | the rows of one ticker's group, in frame order, as `groupby("Ticker")` hands them over |
| Technical.Shifted | app.py:185-188 | `groupby("Ticker").shift(lag)` reads a row of the same ticker at or before the current one |
| Technical.PrevSameSeries | app.py:185-188 | the ticker's series up to row `i` ends at the previous same-ticker row, or is empty when there is none |
| Technical.ShiftedOnceOnSeries | app.py:185-188 | shift(1) exists iff the ticker's series so far has at least two rows, and it steps back one element of that series |
| Technical.ShiftedOnceIndex | app.py:185-187 | shift(1) reads the second-to-last element of the ticker's series so far |
| Technical.ShiftedTwiceOnSeries | app.py:186-188 | shift(2) exists iff the series so far has at least three rows, and it reads the third-to-last element |
| Technical.ShiftedRowsOnSeries | app.py:185-188 | the current row, and the rows one and two back in the ticker's own series, are what shift(1) and shift(2) read |
| Technical.ShiftsOnSeries | app.py:185-188 | `PrevHigh`, `PrevPrevHigh`, `PrevLow` and `PrevPrevLow` are the previous one and two highs and lows of the ticker's series, and NaN where the series is too short |
| Technical.HigherHigh | app.py:190 | `HH` is 0 or 1 |
| Technical.HigherLow | app.py:191 | `HL` is 0 or 1 |
| Technical.Trend | app.py:192 | `Trend` is 0 or 1 |
| Technical.TrendFlagsOnSeries | app.py:185-192 | per ticker series: `HH` is 1 iff High[t] > High[t−1] > High[t−2] with all three present; `HL` likewise on lows; `Trend` is 1 iff both are 1; all three are 0 at a ticker's first two bars |
| Technical.Closes | app.py:203 | the `Close` column of a ticker's group, row by row |
| Technical.DropMissing | app.py:196 | `dropna()` keeps exactly the present values and never lengthens |
| Technical.DropMissingAppend | app.py:196 | `dropna()` of a concatenation is the concatenation of the `dropna()`s, so the present values keep their order and multiplicity |
| Technical.DropMissingOne | app.py:196 | a NaN is dropped and a present value is kept |
| Technical.DropAllPresent | app.py:196 | on a column with no NaN, `dropna()` returns the values unchanged |
| Technical.Window | app.py:199 | `clean[-20:]` has exactly `SLOPE_WINDOW` = 20 values |
| Technical.Slope | app.py:195-201 | the slope is missing iff fewer than 20 closes are present; otherwise it is the slope of a least-squares line through the last 20 present closes against 0..19 |
| Technical.TickerSlope | app.py:203 | the `Slope` of a ticker: `slope_fn` applied to the closes of its own group |
| Technical.OlsMinimal | app.py:200-201 | the closed-form coefficients have the least squared error of all lines |
| Technical.SlopeOnLine | app.py:195-201 | if the window lies on a line a + b·i, the slope is exactly b |
| Technical.SlopeOfOneToTwenty | app.py:195-201 | closes 1, 2, …, 20 give slope 1 |
| Technical.TickerColumn | app.py:205 | the `Ticker` column of the frame |
| Technical.Tickers | app.py:203-206 | the groups: every ticker with a bar, each once |
| Technical.LatestIndex | app.py:205 | `tail(1)` of a ticker's group is a row of that ticker with no later row of it |
| Technical.SnapOf | app.py:205-206 | a ticker's snapshot row: its last row with that row's flags, joined with the ticker's slope |
| Technical.TechnicalSnapshot | app.py:203-206 | one row per ticker group, each that ticker's latest row joined with its slope |
| Technical.SnapshotIsLatestPerTicker | app.py:205-206 | the snapshot has exactly one row per ticker with bars; each row is a bar of the frame carrying its ticker's slope; on a (Ticker, Date)-sorted frame it is the ticker's latest-dated bar |
| Technical.LatestIsLatestDated | app.py:205 | on a frame sorted by (Ticker, Date), a ticker's last row has its latest date |
| Regression.OlsSlope | app.py:200-201 | `coef_[0]` as the closed form Σ(i−ī)(y−ȳ) / Σ(i−ī)²; its meaning is proved by `OlsMinimisesSquaredError` and `OlsExactOnLine` |
| Regression.OlsIntercept | app.py:200 | the fitted intercept ȳ − b·ī, which makes the line pass through the mean point |
| Regression.SumLinear | app.py:200 | (helper) sums are linear: the sum of c·f + d·g is c·Σf + d·Σg |
| Regression.SumScaled | app.py:200 | (helper) a constant factor comes out of a sum: Σc·f = c·Σf |
| Regression.SumCongruent | app.py:200 | (helper) functions that agree below n have equal sums |
| Regression.SumOfLine | app.py:200 | (helper) Σ_{i<n}(a + b·i) = n·a + b·Σi |
| Regression.SumNonnegative | app.py:200 | (helper) a sum of non-negative terms is non-negative |
| Regression.SumOfIndices | app.py:200 | (helper) 0 + 1 + … + (n−1) = n(n−1)/2 |
| Regression.IndexSpreadPositive | app.py:200 | for two or more points the index spread Σ(i−ī)² is positive, so the slope is well defined |
| Regression.SumOfSeries | app.py:200 | (helper) the sum of a series is its length times its mean |
| Regression.ResidualSum | app.py:200 | the residual sum is Σy − b·Σi − n·a |
| Regression.ResidualsSumToZero | app.py:200 | the OLS residuals sum to zero |
| Regression.ResidualsOrthogonal | app.py:200 | the OLS residuals are orthogonal to the centred indices |
| Regression.IndexResidualsSumToZero | app.py:200 | the OLS residuals are orthogonal to the indices |
| Regression.OrthogonalToLines | app.py:200 | (helper) residuals orthogonal to 1 and to i are orthogonal to every line p + q·i |
| Regression.ResidualsOrthogonalToLines | app.py:200 | the OLS residuals are orthogonal to the gap between the OLS line and any other line |
| Regression.PythagoreanBound | app.py:200 | (helper) if r = e + d with e orthogonal to d, then Σe² ≤ Σr² |
| Regression.OlsMinimisesSquaredError | app.py:200-201 | no line a + b·i has a smaller squared error than the OLS line |
| Regression.MeanOnLine | app.py:200 | the mean of points on a line a + b·i is a + b·ī |
| Regression.CovariationOnLine | app.py:200 | for points on a line, the covariation is b times the index spread |
| Regression.OlsExactOnLine | app.py:200-201 | for points on a line a + b·i, OLS returns slope b and intercept a |
| Fundamentals.Get | app.py:215-217 | `record.get(key)`: the value, or NaN when the key is absent |
| Fundamentals.RowFor | app.py:211-218 | a row exists iff both statement lists have at least two periods; it carries the symbol and the period-0 and period-1 revenue, net income and operating cash flow, missing fields as NaN |
| Fundamentals.CollectFundamentals | app.py:209-218 | the `for sym in tickers` loop fills `frows` with exactly `CollectedRows(tickers, fetch)` |
| Fundamentals.CollectedRows | app.py:209-218 | every collected row belongs to a requested symbol |
| Fundamentals.Lookup | app.py:229 | a merge match is a `fund_df` row with that ticker, and there is no match only when no row has that ticker |
| Fundamentals.LookupSnoc | app.py:229 | appending a row changes the match only for a ticker that had none |
| Fundamentals.LookupCollected | app.py:209-229 | for distinct symbols, the merge finds the symbol's own `RowFor` row when it was requested and nothing otherwise |
| Columns.Greater | app.py:190-191 | a column comparison `a > b` that is false whenever either side is NaN |
| Columns.AsInt | app.py:190-192 | `.astype(int)` of a boolean: 0 or 1, and 1 iff the condition holds |
| Fundamentals.GrowthFlag | app.py:232-234 | a growth flag is 0/1 and is 1 iff both values are present and latest > previous |
| Scoring.Merge | app.py:229 | the left merge keeps every snapshot row, in order, with its technical columns |
| Scoring.MergedFundamentals | app.py:209-229 | for distinct symbols, a merged row's fundamentals are its symbol's `RowFor` row, or missing when the symbol had none |
| Scoring.Snapshot | app.py:203-229 | the returned `snapshot` has one row per ticker with prices; row i is that ticker's snapshot row with the `fund_df` row the merge finds for it |
| Scoring.SnapshotRows | app.py:177-229 | for a duplicate-free symbol list, the snapshot of the fetched prices has exactly one row per ticker with prices; each is that ticker's latest-dated bar with its slope and the fundamentals of its own symbol |
| Scoring.Row.RevenueGrowth | app.py:232 | `RevenueGrowth` is 0/1 and is 1 iff the row has fundamentals and Revenue > PrevRevenue, both present |
| Scoring.Row.ProfitGrowth | app.py:233 | `ProfitGrowth` is 0/1 and is 1 iff NetIncome > PrevNetIncome, both present |
| Scoring.Row.CashflowGrowth | app.py:234 | `CashflowGrowth` is 0/1 and is 1 iff OperatingCashFlow > PrevOperatingCashFlow, both present |
| Scoring.Row.FinancialScore | app.py:236-238 | `FinancialScore` lies in [0, 1]; it is 1 iff all three flags are 1 and 0 iff all three are 0 |
| Scoring.MissingValueCountsAsNoGrowth | app.py:232-238 | a missing revenue counts as no growth: the score is 2/3 and the row is not strict |
| Scoring.PassesStrict | app.py:241-245 | the strict mask: all three growth flags equal 1 |
| Scoring.Strict | app.py:241-245 | the strict table holds exactly the snapshot rows with all three flags 1, and each has `FinancialScore` 1 |
| Scoring.StrictReadsOnlyFundamentals | app.py:241-245 | the strict filter reads only the fundamentals: tables that agree on them give tables of the same size agreeing on them, whatever `Trend` and `Slope` are |
| Scoring.SlopeColumn | app.py:248 | the `Slope` column of the strict table |
| Scoring.DefinedSlopes | app.py:248-249 | the values `min()` and `max()` see are exactly the present slopes of the rows, and there are none iff no slope is present |
| Scoring.MinOf | app.py:249 | `min()` is one of the values and no larger than any |
| Scoring.MaxOf | app.py:249 | `max()` is one of the values and no smaller than any |
| Scoring.SlopeNorm | app.py:250 | the norm is present iff the slope is, and lies in [0, 1) for a slope within [mn, mx] |
| Scoring.AnnualizedReturn | app.py:254 | present iff slope and close are present and the close is non-zero, and then return × close = slope × 252 × 100 |
| Scoring.Scored.FinalScore | app.py:255 | `0.6·SlopeNorm.fillna(0) + 0.4·FinancialScore`: a missing norm counts as 0; with a norm in [0, 1) the score lies in [0, 1), and in [0.4, 1) on a strict row |
| Scoring.Scores | app.py:247-255 | one scored row per strict row, in order; SlopeNorm is present iff the slope is (so all missing when none is) and lies in [0, 1); the annualized return of each row |
| Scoring.ScoresAt | app.py:248-250 | a row with a slope is normalised against the min and max of the present slopes |
| Scoring.SlopeNormMonotone | app.py:248-250 | SlopeNorm is monotone: a larger slope never gets a smaller norm |
| Scoring.SlopeNormOfLowest | app.py:248-250 | the row with the lowest slope gets SlopeNorm 0 |
| Scoring.FlatSlopesScoreZero | app.py:248-255 | when all present slopes are equal, including the single-row case, every row's filled SlopeNorm is 0 |
| Scoring.ScoreGeTotalPreorder | app.py:257 | "FinalScore at least as large" is a total preorder |
| Scoring.Ranked | app.py:241-257 | the returned strict table is a permutation of the scored strict rows, non-increasing in `FinalScore`; every row is a snapshot row passing the filter, with `FinalScore` in [0.4, 1) |
| Scoring.AtLeast | app.py:290-292 | the minimum-score view holds exactly the rows with `FinalScore` ≥ min_score |
| Scoring.AtLeastKeepsOrder | app.py:292 | the view of a table sorted by descending `FinalScore` is itself sorted by descending `FinalScore` |
| Scoring.AtLeastAppend | app.py:292 | the view of a concatenation is the concatenation of the views, so the kept rows keep their relative order and their repeats |
| Scoring.AtLeastSnoc | app.py:292 | appending a row appends it to the view exactly when its `FinalScore` ≥ min_score, which with the empty table fixes the view row by row |
| Scoring.KeepsAll | app.py:292 | when every row reaches min_score the view is the whole table |
| Scoring.KeepsNone | app.py:292 | when no row reaches min_score the view is empty |
| Scoring.AtLeastOnRanked | app.py:290-292 | on the ranked table, a minimum of at most 0.4 keeps every row, in order, and one of at least 1.0 keeps none |
| Scoring.MinScoreView | app.py:292 | on the table `compute_all` returned: exactly the rows with `FinalScore` ≥ min_score; on the column-less frame of the no-prices exit the column lookup fails |
| Scoring.ComputeAll | app.py:177-259 | empty prices give the column-less empty frame for both tables (`None`); otherwise `snapshot` is the merged technical/fundamental snapshot of the fetched prices; `strict` is its ranking, sorted non-increasing by `FinalScore` with every row strict and scoring in [0.4, 1) |

## Left out

- The Streamlit UI is not modelled: page config, sidebar, tables, metrics, the detail view and the chart (app.py:16, 109, 265-319). It is presentation only.
- The user-chosen display re-sort at app.py:293 is not modelled; it is part of the UI.
- The providers are parameters of the model. The model has no `yf.download`, no `requests.get`, no `yf.Ticker(...).history`, no timeouts and no `time.sleep` (app.py:125-132, 155-170, 312).
- No real date is modelled: dates are day numbers and the `end` date is not modelled.
- Each statement response is taken to be a list of records. A request that fails becomes `[]`, as in the source. A JSON body that is not a list, such as an error object, is not modelled.
- `st.cache_data`, `st.secrets` and the API-key check (app.py:25-28, 34, 118, 153, 176, 269) configure the process and have no behaviour to verify.
- `threads=True` (app.py:128) is concurrency inside a foreign library.
- sklearn is replaced by the closed-form OLS formula.
- IEEE-754 arithmetic is replaced by exact `real`s.
- Scoring.AnnualizedReturn: a close of exactly 0 gives ±inf or NaN in numpy. The model gives `None`, so its contract says nothing about that case.
- Ties in the sorts are left open:
  - the model's `SortBy` is stable, but pandas' default sort need not be, so rows with equal keys may come out in another order;
  - only the permutation and ordering facts are stated.
- Technical.TechnicalSnapshot: the rows follow the first appearance of each ticker in the (Ticker, Date)-sorted frame.
  - The source gets its row order from a `sort_values("Date")` that is not stable. Only which rows appear, and their contents, are modelled.
  - A ticker with two bars on its latest date may keep either bar in the source. The model keeps the last in frame order.
- Fundamentals.Lookup: with a repeated ticker in the symbol list, the source's left merge duplicates the snapshot row. The model attaches one `fund_df` row. The universe the dashboard passes in is duplicate-free, as `Universe.UniverseDistinct` proves.
- Batching.Chunk: `chunk(lst, 0)` raises in Python. The model requires n > 0, and the slider keeps the batch size between 50 and 200.
- Merging the slope column back by ticker is modelled as computing each ticker's slope from its own group. pandas join mechanics (`reset_index`, `to_frame`, column suffixes) are not modelled.
