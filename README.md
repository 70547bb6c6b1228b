# Sales forecasting dashboard: the forecasting core

This project models, in Dafny, the computational core of a Streamlit sales
dashboard for a retail shop. The dashboard has two parts:

- A monthly LSTM forecaster (`utils/model_infer.py`). It turns one product's
  transactions into a gap-free monthly series with modal promotion and
  holiday codes. It builds a lag / moving-average / one-hot feature table,
  aligns it to the scaler's feature order, and rolls the network forward
  month by month. Each forecast is clamped at 0 and rounded half to even.
- The two pages that use forecasts:
  - The dashboard (`pages/1_Dashboard.py`) coerces money strings and finds
    the profit columns by normalised name. It folds the product forecasts
    into a yearly unit and profit KPI and sums them into a month-keyed
    portfolio chart. It labels event months and aggregates monthly quantity
    and revenue.
  - The weekly forecast page (`pages/4_Prediksi_Mingguan.py`) builds a
    W-MON weekly feature table with lags 1/2/3/4/8 and 3/4-week means. It
    takes the last 12 rows as a window, and picks the target month's year
    and first Monday. It derives the model file names from the product
    name, and slides the window forward one predicted week at a time.

The Keras network, the sklearn scaler, `joblib`, the file system, `sin`,
`cos` and `expm1` are parameters of the model (function-typed values and
`Option`s). Each module follows one part of the program:

- `Base`, `Strings`, `Calendar`, `Resample`, `Sales`: shared values, string
  operations, proleptic Gregorian day numbers, ISO weeks, bucket sums and
  the transaction table.
- `Monthly`, `Features`, `Align`, `Artifacts`, `Forecaster`: the monthly
  forecaster. The artifact cache is a class whose fields are the module
  globals.
- `Dashboard`, `DashboardPage`: the dashboard helpers, and the page wired
  to the forecaster.
- `Weekly`: the weekly page.

The loops of the source are methods with loop invariants, each proved
against a function that specifies it:

- `Features.BuildFeatures` and its column loops;
- `Align.AddMissing`;
- `Forecaster.ForecastMonths`;
- `Dashboard.ComputeKpi`, `Dashboard.AggregatePredMonthly`;
- `Weekly.StepToMonday`, `Weekly.Rollout`.

Both weekly row-rebuild methods write the slots of an `array`.

## Model

| member | source | states |
|---|---|---|
| Base.RoundHalfEven | utils/model_infer.py:137 | Python's `round`: the result is within 0.5 of the input, a tie goes to the even neighbour, and a non-negative input gives a non-negative result |
| Base.RoundHalfEvenUnique | utils/model_infer.py:137 | any integer within 0.5 of x that is even on a tie is RoundHalfEven(x), so the rounding is fully determined |
| Base.ClampNonNegative | utils/model_infer.py:137 | `max(0, yhat)` is at least 0 and at least the input, and equals one of them |
| Resample.Aggregate | utils/model_infer.py:69-70 | `resample("MS").sum()`: one value per bucket from the smallest to the largest observed bucket, each the total of that bucket's observations (0 for a bucket without any) |
| Resample.AggregateConserves | utils/model_infer.py:69-70 | the resampled series adds up to the total of all observations |
| Sales.RowsOf | utils/model_infer.py:116 | every kept row has the product's name and every row with that name is kept |
| Sales.RowsOfAppend | utils/model_infer.py:116 | the boolean-mask filter works row by row: on a concatenation it is the concatenation of the filtered parts, so the kept rows stay in table order |
| Sales.RowsOfCounts | utils/model_infer.py:116 | each row with the product's name is kept as many times as the table holds it, and no other row is kept |
| Sales.DatedKeepsParsed | utils/model_infer.py:67-68 | `dropna(subset=["Tanggal"])` keeps exactly the rows whose date parsed |
| Sales.DatedAppend | utils/model_infer.py:67-68 | the `dropna` works row by row: on a concatenation it is the concatenation of the two results, so the kept rows stay in table order |
| Sales.DatedCounts | utils/model_infer.py:67-68 | each row whose date parsed is kept as many times as the table holds it, and no other row is kept |
| Monthly.ModeSafe | utils/model_infer.py:58-63 | None exactly when no code is present, otherwise one of the present codes |
| Monthly.ModeSafeIsModalCode | utils/model_infer.py:58-63 | the result is a most frequent present code, and among equally frequent codes the first in the order pandas sorts `mode()` by: integer codes by value, other codes as strings |
| Monthly.FirstModeUnique | utils/model_infer.py:62-63 | there is only one such first most frequent code |
| Monthly.BestOfBeatsAll | utils/model_infer.py:62-63 | the selected code beats every candidate in (count, then sort order) order |
| Monthly.CodeLeTotal | utils/model_infer.py:62-63 | any two codes are comparable in the sort order of `mode()` |
| Monthly.CodeLeTransitive | utils/model_infer.py:62-63 | the sort order of `mode()` is transitive |
| Monthly.CodeLeAntisymmetric | utils/model_infer.py:62-63 | two codes that sort before each other are the same code |
| Monthly.IntegerCodesTieByValue | utils/model_infer.py:62-63 | with one row each of holiday codes 10 and 2, the month's code is 2, as pandas sorts an integer column numerically |
| Monthly.MonthEntriesCover | utils/model_infer.py:67-69 | every dated row contributes its quantity to its month, and there are no observations exactly when no date parsed |
| Monthly.ToMonthly | utils/model_infer.py:65-73 | the promotion / holiday series exist exactly when the table has that column, and then have one entry per month of the quantity series |
| Monthly.ToMonthlyValues | utils/model_infer.py:69-70 | month k of the series is the quantity sold in that month over the dated rows |
| Monthly.ToMonthlyConserves | utils/model_infer.py:69-70 | the monthly series adds up to the quantity of all dated rows |
| Monthly.ToMonthlySpan | utils/model_infer.py:67-70 | the series covers every dated row's month, and is empty exactly when no date parsed |
| Monthly.ToMonthlyPromoCodes | utils/model_infer.py:71 | each month's promotion code is the modal code of that month's dated rows |
| Monthly.ToMonthlyHolidayCodes | utils/model_infer.py:72 | each month's holiday code is the modal code of that month's dated rows |
| Features.ColumnNamesDistinct | utils/model_infer.py:80-95 | the feature table's columns `y, month_sin, month_cos, lag1..lagL, ma3, promoA..D, holi1..4` are pairwise distinct |
| Features.ConcreteFlagNames | utils/model_infer.py:86-95 | the flag columns are named `promoA..promoD` and `holi1..holi4` |
| Features.RowComplete | utils/model_infer.py:96 | a row has no missing cell exactly when it is at least max(L, 2) months in |
| Features.DropNaSuffix | utils/model_infer.py:96 | `dropna` on a table whose complete rows are a suffix keeps exactly that suffix, in order, with the same index |
| Features.FeatureFrameShape | utils/model_infer.py:83-96 | the feature table has the columns in order and max(0, n - max(L, 2)) rows, indexed by consecutive months ending at the series' last month |
| Features.FeatureFrameRows | utils/model_infer.py:83-96 | every kept row holds y, its lags, its moving average, its month encodings and its flags as stated for that month; the holiday flags are the corrected ones (see Findings) |
| Features.FrameLagsAndMean | utils/model_infer.py:83-85 | row j of the feature table is month max(L, 2) + j of the series: each `lag i` holds y of i months earlier and `ma3` the mean of y over that month and the two before it |
| Features.PromoFlagsOneHot | utils/model_infer.py:86-90 | in every kept row at most one promotion flag is 1, it is the flag of the month's code, and all are 0 without a promotion column |
| Features.HolidayFlagsOneHot | utils/model_infer.py:91-95 | corrected: in every kept row at most one holiday flag is 1, it is the flag of the month's code, and all are 0 without a holiday column (see Findings) |
| Features.PrintedHolidayCases | utils/model_infer.py:72-95 | `astype(str)` leaves the month codes as they are unless the aggregated column is float64 (integer codes and a month without one); then no printed code equals `str(k)` for k in 1..4 |
| Features.GapClearsHolidayFlags | utils/model_infer.py:91-95 | as written, once a month of the span has no code while the others hold integer codes, every holiday flag of every kept row is 0 |
| Features.HolidayGapExample | utils/model_infer.py:72-96 | codes 2, none, 1 with one lag: the kept March row has `holi1` = 1 in the corrected table and 0 as written |
| Features.BuildFeatures | utils/model_infer.py:75-97 | the column-adding loops produce exactly the specified feature table |
| Features.AddLagColumns | utils/model_infer.py:83-84 | the lag loop adds `lag1..lagL` in order |
| Features.AddPromoColumns | utils/model_infer.py:86-90 | the promotion loop adds `promoA..D` in order |
| Features.AddHolidayColumns | utils/model_infer.py:91-95 | the holiday loop adds `holi1..4` in order, the corrected flags of the month's code |
| Align.DropColumnFacts | utils/model_infer.py:123 | dropping `y` removes exactly that column and keeps every other cell |
| Align.AddMissing | utils/model_infer.py:103-105 | each missing feature column is added as 0.0 in every row, and every existing cell is kept |
| Align.AlignFeatureOrder | utils/model_infer.py:99-106 | the method (writing the missing columns into its frame) returns the aligned frame |
| Align.AlignedFacts | utils/model_infer.py:99-106 | with a feature order the result has exactly those columns in that order: present ones keep their values, missing ones are 0.0, extra ones are gone |
| Align.AlignIdempotent | utils/model_infer.py:99-106 | aligning twice equals aligning once, with or without a feature order |
| Align.AlignedValues | utils/model_infer.py:106 | cell i of a row of `.values` is the row's value of `feature_cols[i]`, or 0.0 when the frame lacked it |
| Artifacts.PickFeatureScaler | utils/model_infer.py:17-27 | an object with `transform` gives (itself, no order, 6); an unrecognised object raises; a result's scaler is never None; the only errors are the three raised here |
| Artifacts.PickFromBundle | utils/model_infer.py:20-26 | a dict gives the first truthy of `x_scaler` / `scaler` / `feature_scaler`, its `feature_cols` value as it is (None when absent), and `n_steps` with default 6 |
| Artifacts.FeatureOrder | utils/model_infer.py:99-102 | among the modelled Python values, a `feature_cols` gives an order exactly when it is a list |
| Artifacts.PickMissingScaler | utils/model_infer.py:21-25 | a dict raises "scaler not found" exactly when neither `x_scaler` nor `scaler` is truthy and `feature_scaler` is absent or None |
| Artifacts.ToInt | utils/model_infer.py:23 | `int(...)` keeps an int, truncates a float toward zero, reads a string exactly when it is a signed integer numeral, and raises on None, a list or a scaler |
| Artifacts.ToReal | utils/model_infer.py:46-47 | `float(...)` converts an int or float, reads a string as a signed decimal numeral, and fails on None, a list or a scaler |
| Artifacts.IntegerTextConverts | utils/model_infer.py:23-47 | `int(str(n))` and `float(str(n))` give n back for every integer n |
| Artifacts.DecimalTextConverts | utils/model_infer.py:23-47 | a signed numeral with a decimal point reads under `float` as whole part plus fraction, with its sign, and raises under `int` |
| Artifacts.Get | utils/model_infer.py:21-23 | `dict.get` returns the entry when the key is present, otherwise the default |
| Artifacts.Or | utils/model_infer.py:21 | Python's `or` returns the first operand when it is truthy, otherwise the second |
| Artifacts.YFlags | utils/model_infer.py:44-49 | the target flags default to (False, 0.0, 1.0), also when a value does not convert, and otherwise are the bundle's `y_log`, `y_mu`, `y_sd` |
| Artifacts.ArtifactCache.constructor | utils/model_infer.py:8-11 | at import time no artifact is cached and the target flags are unset |
| Artifacts.ArtifactCache.Load | utils/model_infer.py:29-49 | the model and scaler are each loaded only while uncached and are never replaced later; a missing model file raises first; the target flags are set only from a mapping bundle; a failed load changes no scaler field; success means both are cached |
| Forecaster.StepValue | utils/model_infer.py:134-137 | the step value is never negative, is 0 for a prediction at or below 0, and is otherwise within 0.5 of the (log-inverted when `_Y_LOG`) prediction |
| Forecaster.NextRowLags | utils/model_infer.py:143-146 | the next row's `y` is the newest history value, `lag i` is the i-th newest (the newest when the history is shorter), and `ma3` is the mean of the last three (the newest when fewer) |
| Forecaster.NextRowMonth | utils/model_infer.py:147-148 | the next row's month encodings are those of the month just predicted |
| Forecaster.NextRowFlags | utils/model_infer.py:150-153 | the next row's flags are the scenario's flag vectors |
| Forecaster.ScenarioFlagsOneHot | utils/model_infer.py:150-153 | the scenario's flags are one-hot: only the named class is 1, and all are 0 when no class is named |
| Forecaster.NextRowKeys | utils/model_infer.py:143-153 | the next row has exactly the feature table's columns |
| Forecaster.BuildNextRow | utils/model_infer.py:143-153 | the dict-building statements produce exactly the specified next row |
| Forecaster.WriteLags | utils/model_infer.py:144-145 | the lag loop writes `lag1..lagL` as specified |
| Forecaster.WritePromoFlags | utils/model_infer.py:150-151 | the promotion loop writes the four promotion flags |
| Forecaster.WriteHolidayFlags | utils/model_infer.py:152-153 | the holiday loop writes the four holiday flags |
| Forecaster.HistoryNoOrder | utils/model_infer.py:123-125 | without a feature order, `X_hist` is the feature table without `y`, in the table's column order |
| Forecaster.HistoryWithOrder | utils/model_infer.py:123-125 | with a feature order, `X_hist` is the feature table without `y`, aligned to that order |
| Forecaster.HistoryValues | utils/model_infer.py:123-125 | the method computes exactly the history matrix |
| Forecaster.StartHistory | utils/model_infer.py:129-130 | the loop starts from the kept rows' `y` values, and the first month predicted follows the table's last month |
| Forecaster.StartInput | utils/model_infer.py:108-110 | the first network input is the scaled last row of `X_hist` only, in the feature order |
| Forecaster.ScaledLast | utils/model_infer.py:108-110 | the source scales the whole history matrix and `_make_sequence` takes its last row; since the scaler transforms each row on its own, that is the scaled last history row |
| Forecaster.StartOf | utils/model_infer.py:120-131 | an empty feature table raises, then a `feature_cols` that is neither None nor a list, then a scaler without `transform`; otherwise the loop starts as specified |
| Forecaster.RolloutHistory | utils/model_infer.py:138-141 | after k iterations the history is the original one followed by the first k predictions, and the month has advanced by exactly k |
| Forecaster.RolloutValues | utils/model_infer.py:133-138 | prediction k is the step value of the input current at iteration k |
| Forecaster.RolloutInputs | utils/model_infer.py:140-159 | after each iteration the input is built from the extended history and the month just predicted |
| Forecaster.RolloutForecastInputs | utils/model_infer.py:155-159 | that input is the scaler applied to the next row in the history's layout |
| Forecaster.RolloutLag1 | utils/model_infer.py:141-145 | the row built after iteration k has `lag1` equal to prediction k |
| Forecaster.RolloutLatest | utils/model_infer.py:141 | the newest history value after iteration k is prediction k |
| Forecaster.RolloutNonNegative | utils/model_infer.py:137 | every forecast value is non-negative |
| Forecaster.Iteration | utils/model_infer.py:134-159 | one iteration's body: the step value, the history extended by it, and the next input |
| Forecaster.ForecastMonths | utils/model_infer.py:133-161 | the loop's `preds` is exactly the rollout of `horizon` steps (none for a horizon below 1) |
| Forecaster.ForecastOutcome | utils/model_infer.py:116-138 | raises exactly for a product without rows, then for an empty feature table, then for a `feature_cols` that is neither None nor a list, then for a scaler without `transform`; otherwise gives exactly `horizon` non-negative integers |
| Forecaster.RunForecast | utils/model_infer.py:116-163 | the method computes the specified forecast result |
| Forecaster.PredictForProduct | utils/model_infer.py:112-163 | a failed artifact load raises one of the load errors; after a successful load the result is the forecast with the cached artifacts; an already loaded cache is left unchanged |
| Forecaster.RolloutLayoutMatchesHistory | utils/model_infer.py:123-159 | the corrected next input has exactly the history's column order, cell by cell |
| Forecaster.DictOrderMismatch | utils/model_infer.py:143-159 | the next row's dict order has the same columns as the history but in a different order (`lag1` first versus `month_sin` first), so without `feature_cols` the vectors differ in slot 0 |
| Forecaster.FeatureOrderHidesDictOrder | utils/model_infer.py:155-156 | with a `feature_cols` order both layouts give the same vector |
| Dashboard.CoerceMoneyIgnoresNoise | pages/1_Dashboard.py:33 | every character other than a digit, `,`, `.` and `-` is dropped before parsing |
| Dashboard.CoerceMoneyGrouped | pages/1_Dashboard.py:34-36 | with both separators, `.` groups thousands and `,` is the decimal point |
| Dashboard.CoerceMoneyPoint | pages/1_Dashboard.py:35-36 | a lone `.` is the decimal point |
| Dashboard.CoerceMoneyLoneComma | pages/1_Dashboard.py:35-36 | a lone `,` is always read as a decimal point |
| Dashboard.CoerceMoneyTwoDots | pages/1_Dashboard.py:36 | a number with two dots does not parse and becomes missing |
| Dashboard.CoerceMoneyGroupedExample | pages/1_Dashboard.py:32-36 | "1.234,56" is 1234.56 |
| Dashboard.CoerceMoneyPointExample | pages/1_Dashboard.py:32-36 | "1234.56" is 1234.56 |
| Dashboard.CoerceMoneyLoneCommaExample | pages/1_Dashboard.py:32-36 | "1,234" is 1.234, not 1234 |
| Dashboard.NormaliseSeparators | pages/1_Dashboard.py:34-35 | no `,` is left after the separator rewrite |
| Dashboard.Lower | pages/1_Dashboard.py:42 | `.lower()` maps each character and leaves no upper-case ASCII letter |
| Dashboard.NormName | pages/1_Dashboard.py:41-49 | the normalised name holds only lower-case word characters |
| Dashboard.NormNameFixed | pages/1_Dashboard.py:41-49 | a name that is already normalised and holds no synonym is its own normal form |
| Dashboard.FindCol | pages/1_Dashboard.py:53-58 | None exactly when no column's normalised name has every required key and no forbidden key; otherwise the first such column in column order |
| Dashboard.ProfitColumnsDiffer | pages/1_Dashboard.py:60-61 | the per-unit and total profit columns, when both are found, are different columns |
| Dashboard.EventLabel | pages/1_Dashboard.py:234-240 | months 1, 4, 8 and 12 get Tahun Baru, Idul Fitri, HUT RI and Natal, each exactly in its month; every other month gets None |
| Dashboard.EventLabelYearly | pages/1_Dashboard.py:234-240 | the label depends only on the month of the year |
| Dashboard.SortReals | pages/1_Dashboard.py:132 | the sort used by the median is sorted and a permutation of its input |
| Dashboard.SortedUnique | pages/1_Dashboard.py:132 | two sorted permutations of the same values are equal, so the median is well defined |
| Dashboard.MedianOrderFree | pages/1_Dashboard.py:132 | the median does not depend on the order of the values |
| Dashboard.MedianBetween | pages/1_Dashboard.py:132 | the median lies within any bounds of the values |
| Dashboard.PresentValues | pages/1_Dashboard.py:132 | `dropna()` keeps only present values |
| Dashboard.ProfitRateFallback | pages/1_Dashboard.py:131-139 | the rate is the median of the recorded per-unit profits; only when that is missing or 0 and both totals are positive is it total profit ÷ units; otherwise 0 |
| Dashboard.ProfitRateNonNegative | pages/1_Dashboard.py:131-139 | with no negative per-unit profit the rate is not negative |
| Dashboard.ComputeKpi | pages/1_Dashboard.py:118-141 | the loop gives the unit total over the counted products and the profit total rounded half to even |
| Dashboard.ShareCounted | pages/1_Dashboard.py:126-140 | a product with rows and a successful forecast adds `int(sum(yhat))` units and those units at its rate |
| Dashboard.KpiAppend | pages/1_Dashboard.py:121-140 | the KPI of a concatenated product list is the sum of the parts' KPIs |
| Dashboard.KpiSkipsFailed | pages/1_Dashboard.py:122-128 | a product without rows, or whose forecast raises, changes neither total, and the others are still counted |
| Dashboard.KpiNonNegative | pages/1_Dashboard.py:118-141 | with non-negative forecasts and per-unit profits both totals are non-negative |
| Dashboard.PlanOfCases | pages/1_Dashboard.py:214-229 | a product is placed exactly when it has a dated row and its forecast succeeds, and its last month is at or after every dated sale |
| Dashboard.AddForecast | pages/1_Dashboard.py:230-231 | one product's loop adds `yhat[i]` to each of the months after its last month, keeping the table keyed by exactly the covered months |
| Dashboard.SortIndex | pages/1_Dashboard.py:232 | `sort_index()` lists every covered month once, in increasing order, with its total |
| Dashboard.AggregatePredMonthly | pages/1_Dashboard.py:212-232 | the series is in chronological order, lists exactly the covered months with their totals, and adds up to the sum of the placed forecasts |
| Dashboard.ChartMatchesKpi | pages/1_Dashboard.py:212-232 | on dated rows with full-length forecasts, the chart's total equals the KPI's unit total |
| Dashboard.PlanMatchesShare | pages/1_Dashboard.py:214-229 | on dated rows a product is placed on the chart exactly when it is counted in the KPI, with the same units |
| Dashboard.ItemRevenues | pages/1_Dashboard.py:149 | `Revenue_item` is price times quantity row by row |
| Dashboard.SalesFrame.constructor | pages/1_Dashboard.py:144 | the frame holds the uploaded table and no `Revenue_item` column yet |
| Dashboard.SalesFrame.BuildMonthlyAgg | pages/1_Dashboard.py:144-157 | monthly quantity; monthly revenue only when the frame has prices and a dated row; and, with prices, the frame gains its `Revenue_item` column |
| Dashboard.MonthlyRevenueSpan | pages/1_Dashboard.py:145-151 | the revenue series covers the same months as the quantity series |
| Dashboard.MonthlyRevenueValues | pages/1_Dashboard.py:150-151 | each month's revenue is that month's sum of price × quantity |
| Dashboard.MonthlyRevenueConserves | pages/1_Dashboard.py:150-151 | the monthly revenue adds up to the revenue of all dated rows |
| DashboardPage.PageForecasts | pages/1_Dashboard.py:159-160 | with the real forecaster the forecasts have `horizon` values, both KPI totals are non-negative and the chart adds up to the KPI units |
| Weekly.WeekIndexSpan | pages/4_Prediksi_Mingguan.py:120 | a W-MON week runs from a Tuesday to the Monday that labels it, and each day lies in exactly one week |
| Weekly.MondayLabelsItself | pages/4_Prediksi_Mingguan.py:120 | every Monday labels its own week |
| Weekly.WeeklyValues | pages/4_Prediksi_Mingguan.py:116-120 | each week's value is the quantity sold on its seven days, 0 for a week without sales |
| Weekly.RowFields | pages/4_Prediksi_Mingguan.py:123-139 | row k of the table is week k + 8: its Monday, its y, lags 1/2/3/4/8 and its trailing 3- and 4-week means |
| Weekly.WeeklyTableLags | pages/4_Prediksi_Mingguan.py:130-139 | consecutive rows are 7 days apart, each `lag_k` is the `y` of k rows back, and `ma_3` / `ma_4` are means of y and its lags |
| Weekly.WeeklyWindowOutcome | pages/4_Prediksi_Mingguan.py:139-143 | the page stops exactly for a product without rows or with fewer than 20 weeks (12 rows after the first 8 go); otherwise the window is the table's last 12 rows |
| Weekly.WindowConsistent | pages/4_Prediksi_Mingguan.py:164-170 | the window's unscaled vectors keep the table's lag and mean relations |
| Weekly.TargetYearIsNext | pages/4_Prediksi_Mingguan.py:146-153 | the target month is the first month after the last data month with the chosen month of the year |
| Weekly.StepToMonday | pages/4_Prediksi_Mingguan.py:157-158 | the stepping loop stops within 6 days on the first Monday at or after its start |
| Weekly.FirstMonday | pages/4_Prediksi_Mingguan.py:155-158 | the result is the first Monday of the target month, within its days 1-7 |
| Weekly.FirstMondayDay | pages/4_Prediksi_Mingguan.py:155-158 | that day is one of the month's days 1-7 |
| Weekly.FutureMondays | pages/4_Prediksi_Mingguan.py:249 | `date_range(..., freq="W-MON")` from a Monday: `n_future` Mondays, 7 days apart, starting at the first |
| Weekly.CleanName | pages/4_Prediksi_Mingguan.py:176 | the cleaned name holds no space, `.`, `/` or `%` |
| Weekly.CleanNameIdempotent | pages/4_Prediksi_Mingguan.py:176 | cleaning a cleaned name changes nothing |
| Weekly.CleanNameCollides | pages/4_Prediksi_Mingguan.py:176 | different product names can share model files ("A.B" and "AB") |
| Weekly.WeeklyModelFiles | pages/4_Prediksi_Mingguan.py:176-185 | the files are `model_<clean>.h5` and `scaler_<clean>.pkl`, and the page stops exactly when either is missing |
| Weekly.RolledWeek | pages/4_Prediksi_Mingguan.py:207-212 | the rolled week and year add up to `last_week + i` in 52-week years, and for weeks 1..53 and 1..4 steps the week lies in 1..52 and the year advances by at most one |
| Weekly.RolloverAfter53 | pages/4_Prediksi_Mingguan.py:207-212 | after ISO week 53 of 2020 the page writes week 2 of 2021, where the Monday 7 days on is ISO week 1 of 2021 |
| Weekly.FutureCodeAfter53 | pages/4_Prediksi_Mingguan.py:123-124 | the corrected week and year, read off the Monday `i` weeks on, give week 1 of 2021 after week 53 of 2020 |
| Weekly.RebuildRow | pages/4_Prediksi_Mingguan.py:217-234 | the array writes produce the source's new row slot by slot |
| Weekly.AsWrittenBreaksWindow | pages/4_Prediksi_Mingguan.py:225-234 | the source's row keeps the window consistent exactly when the targets 5 and 8 weeks before the new row coincide and the prediction equals the targets 3 and 4 weeks before it |
| Weekly.BuildNextRow | pages/4_Prediksi_Mingguan.py:217-234 | the array writes produce the corrected row slot by slot |
| Weekly.NextRowKeepsConsistent | pages/4_Prediksi_Mingguan.py:225-237 | sliding a consistent window by the corrected row keeps it 12 rows wide and consistent |
| Weekly.RunStep | pages/4_Prediksi_Mingguan.py:236-237 | each step appends the prediction, drops the oldest row, keeps the other 11 in order and appends the new row, whose target is the prediction |
| Weekly.RunKeepsRows | pages/4_Prediksi_Mingguan.py:236-237 | after n ≤ 12 steps the window still starts with the original rows from n on |
| Weekly.RunConsistent | pages/4_Prediksi_Mingguan.py:202-237 | every step keeps a consistent window consistent |
| Weekly.Rollout | pages/4_Prediksi_Mingguan.py:202-237 | the loop produces one prediction per step and the specified window, and keeps a consistent window consistent |

## Left out

- Unicode NFKD normalisation in `_norm_name` (pages/1_Dashboard.py:42): names are taken as ASCII, and `\w` as ASCII letters, digits and `_`.
- Floating point: prices, profits, means and scaled values are exact `real`s. `sin`, `cos` and `expm1` are parameters, as are the Keras network (`seq<real> -> real`) and the sklearn scaler's `transform` (`seq<real> -> seq<real>`).
- `joblib.load`, `load_model` and the file system: the artifacts and the presence of each file are inputs (`Artifacts.Files`, the `present` predicate of `Weekly.WeeklyModelFiles`).
- Exceptions raised inside Keras or sklearn are not modelled, beyond the scaler without `transform` and the unusable `feature_cols`.
- Artifacts.ToInt and Artifacts.ToReal read a string only as an optional sign followed by digits, and for `float` at most one decimal point. Python also accepts surrounding whitespace, `_` between digits, and for `float` an exponent, `inf` and `nan`. Such strings are treated here as raising.
- Artifacts.PickFromBundle keeps a `feature_cols` that is not a list, and the forecast raises at the alignment step (Forecaster.ForecastOutcome). A string that names one feature column makes pandas return a single column, and sklearn's `transform` then raises on it. So with a value without `transform` as well, Python reports the missing `transform` where the model reports the feature order.
- Monthly.ModeSafe orders tied codes the way pandas sorts an integer column only for codes written as `str(n)` of a non-negative integer. A column of digit strings stored as text sorts as text in pandas ("10" before "2"). Negative and float codes are compared as strings. In a column mixing integers and text pandas leaves the modes unsorted, while the model puts integers first.
- The page-level profit back-fill and its fixed fallback column names (pages/1_Dashboard.py:63-103): `_profit_unit` and `_profit_total` are input columns of the table.
- The metrics JSON, the accuracy label, the 12-month summary table and all Streamlit rendering, caching (`st.cache_data`), charts and downloads.
- Login and session handling (app.py, utils/common.py) and the upload page; the table arrives with normalised column names and numeric quantities.
- `generate_zigzag_forecast` (pages/4_Prediksi_Mingguan.py:44-76) uses `np.random`. The weekly page displays its output (line 242), and the network's weekly predictions are never shown. The inverse transform on lines 240-241 is dead code.
- Weekly.Rollout: the window is modelled on unscaled feature vectors. The page feeds the network scaled vectors and writes the unscaled year and week into them (lines 219-221). So `Consistent` describes the table's relations, not the scaled arrays.
- Weekly.RebuildRow: the `.copy()` of the last row is not modelled as a copy, because every one of its 12 slots is overwritten.
- Weekly.Rollout uses the corrected row and the corrected week and year (see Findings). Weekly.RebuildRow and Weekly.RolledWeek keep the code as written.
- Dashboard.AggregatePredMonthly requires each successful forecast to have at least `horizon` values. `predict_with_lstm_for_product` always returns exactly `horizon` values (Forecaster.ForecastOutcome), and `DashboardPage.PageForecasts` relies on that.
- The `pd.Timestamp.today()` fallback on line 224 of pages/1_Dashboard.py cannot be reached: a product that gets there has a dated row, so its monthly series is not empty.
- Forecaster.Rollout uses the corrected next-input layout (see Findings); Forecaster.DictOrderMismatch exhibits the code as written.
- Features.HolidayFlagsOneHot states the corrected holiday flags (see Findings). As written, pandas prints a float64 column's code n as "n.0", so no flag is set; Features.GapClearsHolidayFlags states that behaviour on `PrintedHoliday(m)`.
- Features.FeatureFrameRows and Features.AddHolidayColumns build the corrected holiday flags too, so the history rows agree with the scenario flags of the next inputs (Forecaster.NextRowFlags).
- Features.PrintedHolidayCases covers only the float64 column that a month without a code produces. A Holiday column that is already float64 when read (an empty cell anywhere in the sheet, or written as 1.0) prints every code as "n.0" as well. The sales table keeps each code's text and does not record the column's type. Integers of 10^16 and above, which Python prints in exponent form, are not modelled either.
- Artifacts.FeatureOrder models only a Python list as a sequence of names. A numpy array or a pandas `Index` of names, a common way to store `X.columns`, would serve `_align_feature_order` just as well; `PyValue` has no such case.

## Findings

| source | as written | input that shows it | evidently intended | confidence | as-written member | corrected member |
|---|---|---|---|---|---|---|
| utils/model_infer.py:143-159 | Without `feature_cols`, the next-step row is laid out in dict insertion order: `lag1..lagL, ma3, month_sin, month_cos, promo…, holi…`. The history rows are laid out as `month_sin, month_cos, lag1..lagL, ma3, promo…, holi…`. | a bare scaler (no bundle), L ≥ 1, newest history value ≠ sin(month): slot 0 holds lag1 instead of month_sin | the next input has the history's column order | not executed | Forecaster.DictOrderMismatch | Forecaster.RolloutLayoutMatchesHistory |
| pages/4_Prediksi_Mingguan.py:207-212 | the week after the window's last week is `last_week + i`, and 52 is subtracted once when it exceeds 52 | last week = ISO week 53 of 2020 (Monday 2020-12-28), i = 1: writes week 2 of 2021 | the ISO week and year of the Monday `i` weeks on, as the table computes them: week 1 of 2021 | not executed | Weekly.RolloverAfter53 | Weekly.FutureCodeAfter53 |
| pages/4_Prediksi_Mingguan.py:225-234 | The rebuilt row's `lag_8` slot takes the old `lag_4`. Its `ma_3` / `ma_4` average `lag_1..lag_3` / `lag_1..lag_4`, leaving out the new target. | any consistent window whose targets 5 and 8 weeks before the new row differ, or whose prediction differs from the targets 3 or 4 weeks before it | `lag_8` = the target 8 weeks before the new row (slot 0 of the window's 8th-newest row); `ma_3` / `ma_4` include the new target, as the table's rolling means do | not executed | Weekly.AsWrittenBreaksWindow | Weekly.NextRowKeepsConsistent |
| utils/model_infer.py:72-95 | `holi_m` is aggregated with a callable, so a month without a code is None. With integer codes, pandas then stores the column as float64, `astype(str)` prints "2.0", and line 95 compares it with "2". | an integer Holiday column; January has code 2, February has no rows, March has code 1 | each month's flag marks its code, as the scenario flags of the next input do (lines 152-153) | not executed; rests on pandas' dtype inference | Features.GapClearsHolidayFlags | Features.HolidayFlagsOneHot |
