/** The arithmetic of the weekly forecast page, pages/4_Prediksi_Mingguan.py:
    the weekly feature table of one product, the 12-week window, the target
    month's first Monday, the model file names, and the loop that slides the
    window forward one predicted week at a time. The network, the scaler and
    the week encodings are parameters. */
module Weekly {
  import opened Base
  import opened Strings
  import opened Calendar
  import opened Resample
  import opened Sales
  import Features

  // ----- Weeks: `resample("W-MON")` labels each week by the Monday closing it.

  /** The Monday on or after day z: the label of z's week. */
  function WeekLabel(z: int): int
  {
    z + (7 - Weekday(z)) % 7
  }

  /** Weeks are numbered so that week b closes on day 7 * b + 4. */
  function MondayOf(b: int): int
  {
    7 * b + 4
  }

  /** The number of the week holding day z. */
  function WeekIndex(z: int): int
  {
    (WeekLabel(z) - 4) / 7
  }

  /** A week runs from the Tuesday after one Monday up to the next Monday,
      which labels it: each day falls in exactly one such week. */
  lemma WeekIndexSpan(z: int)
    ensures IsMonday(MondayOf(WeekIndex(z)))
    ensures MondayOf(WeekIndex(z)) - 6 <= z <= MondayOf(WeekIndex(z))
    ensures forall b :: MondayOf(b) - 6 <= z <= MondayOf(b) ==> b == WeekIndex(z)
  {
  }

  /** Every Monday labels its own week. */
  lemma MondayLabelsItself(b: int)
    ensures IsMonday(MondayOf(b)) && WeekIndex(MondayOf(b)) == b
  {
  }

  /** The day number of a row's date; used only for rows that Parsed. */
  function SaleDay(s: Sale): int
  {
    if s.date.Some? && 1 <= s.date.value.month <= 12 then DayNumber(s.date.value) else 0
  }

  /** One observation per row whose date parsed: its week and its
      quantity. The daily resample in between only adds days of 0. */
  function WeekEntries(rows: seq<Sale>): (es: seq<Entry>)
    ensures |es| <= |rows|
  {
    if rows == [] then []
    else
      (if Parsed(rows[0]) then [Entry(WeekIndex(SaleDay(rows[0])), rows[0].qty as real)] else [])
      + WeekEntries(rows[1..])
  }

  /** Reference definition: the quantity sold in the seven days up to and
      including Monday MondayOf(b). */
  function WeekQuantity(rows: seq<Sale>, b: int): real
  {
    if rows == [] then 0.0
    else
      (if Parsed(rows[0]) && MondayOf(b) - 6 <= SaleDay(rows[0]) <= MondayOf(b) then rows[0].qty as real else 0.0)
      + WeekQuantity(rows[1..], b)
  }

  /** Each week of the weekly series sums the quantities of its seven
      days, and a week without rows counts 0. */
  lemma {:induction false} WeeklyValues(rows: seq<Sale>, b: int)
    ensures BucketTotal(WeekEntries(rows), b) == WeekQuantity(rows, b)
    decreases |rows|
  {
    if rows != [] {
      WeeklyValues(rows[1..], b);
      if Parsed(rows[0]) {
        var e := Entry(WeekIndex(SaleDay(rows[0])), rows[0].qty as real);
        assert WeekEntries(rows) == [e] + WeekEntries(rows[1..]);
        BucketTotalCons(e, WeekEntries(rows[1..]), b);
        WeekIndexSpan(SaleDay(rows[0]));
      } else {
        assert WeekEntries(rows) == WeekEntries(rows[1..]);
      }
    }
  }

  // ----- The weekly feature table (lines 117-138)

  /** The week number and year columns: `dt.isocalendar().week` and
      `dt.year` of a week's Monday. */
  datatype WeekYear = WeekYear(week: int, year: int)

  function WeekCode(z: int): WeekYear
  {
    WeekYear(IsoWeek(z), CivilFromDays(z).year)
  }

  /** One row of `weekly` after `dropna`. */
  datatype WeekRow = WeekRow(
    monday: int,                         // Tanggal, as a day number
    y: real, year: int, week: int, sin: real, cos: real,
    lag1: real, lag2: real, lag3: real, lag4: real, lag8: real,
    ma3: real, ma4: real)

  /** The row of the series' k-th week: its lags look 1, 2, 3, 4 and 8
      weeks back, and `rolling(n).mean()` averages the current week with
      the n - 1 before it. */
  function WeekRowAt(s: Series, k: int, trig: Features.Trig): WeekRow
    requires 8 <= k < |s.values|
  {
    var v := s.values;
    var monday := MondayOf(s.start + k);
    var code := WeekCode(monday);
    WeekRow(monday, v[k], code.year, code.week, trig.sin(code.week), trig.cos(code.week),
            v[k - 1], v[k - 2], v[k - 3], v[k - 4], v[k - 8],
            (v[k] + v[k - 1] + v[k - 2]) / 3.0, (v[k] + v[k - 1] + v[k - 2] + v[k - 3]) / 4.0)
  }

  /** `weekly.dropna()`: the first eight weeks lack `lag_8` and go. */
  function WeeklyTable(s: Series, trig: Features.Trig): (r: seq<WeekRow>)
    ensures |r| == if |s.values| > 8 then |s.values| - 8 else 0
  {
    if |s.values| <= 8 then []
    else seq(|s.values| - 8, j requires 0 <= j < |s.values| - 8 => WeekRowAt(s, j + 8, trig))
  }

  /** The table's rows are consecutive weeks whose lags are the targets of
      the rows before them and whose moving averages include the current
      week. */
  lemma WeeklyTableLags(s: Series, trig: Features.Trig)
    ensures var r := WeeklyTable(s, trig);
      && (forall k :: 1 <= k < |r| ==> r[k].monday == r[k - 1].monday + 7 && r[k].lag1 == r[k - 1].y)
      && (forall k :: 2 <= k < |r| ==> r[k].lag2 == r[k - 2].y)
      && (forall k :: 3 <= k < |r| ==> r[k].lag3 == r[k - 3].y)
      && (forall k :: 4 <= k < |r| ==> r[k].lag4 == r[k - 4].y)
      && (forall k :: 8 <= k < |r| ==> r[k].lag8 == r[k - 8].y)
      && (forall k :: 0 <= k < |r| ==>
            r[k].ma3 == (r[k].y + r[k].lag1 + r[k].lag2) / 3.0
            && r[k].ma4 == (r[k].y + r[k].lag1 + r[k].lag2 + r[k].lag3) / 4.0)
  {
    TableConsecutive(s, trig);
    TableLagsBack(s, trig);
    TableMeans(s, trig);
  }

  lemma TableConsecutive(s: Series, trig: Features.Trig)
    ensures var r := WeeklyTable(s, trig);
      forall k :: 1 <= k < |r| ==> r[k].monday == r[k - 1].monday + 7 && r[k].lag1 == r[k - 1].y
  {
    var r := WeeklyTable(s, trig);
    forall k | 1 <= k < |r|
      ensures r[k].monday == r[k - 1].monday + 7 && r[k].lag1 == r[k - 1].y
    {
      RowFields(s, trig, k);
      RowFields(s, trig, k - 1);
    }
  }

  lemma TableLagsBack(s: Series, trig: Features.Trig)
    ensures var r := WeeklyTable(s, trig);
      && (forall k :: 2 <= k < |r| ==> r[k].lag2 == r[k - 2].y)
      && (forall k :: 3 <= k < |r| ==> r[k].lag3 == r[k - 3].y)
      && (forall k :: 4 <= k < |r| ==> r[k].lag4 == r[k - 4].y)
      && (forall k :: 8 <= k < |r| ==> r[k].lag8 == r[k - 8].y)
  {
    var r := WeeklyTable(s, trig);
    forall k | 2 <= k < |r| ensures r[k].lag2 == r[k - 2].y {
      RowLagValues(s, trig, k);
      RowLagValues(s, trig, k - 2);
    }
    forall k | 3 <= k < |r| ensures r[k].lag3 == r[k - 3].y {
      RowLagValues(s, trig, k);
      RowLagValues(s, trig, k - 3);
    }
    forall k | 4 <= k < |r| ensures r[k].lag4 == r[k - 4].y {
      RowLagValues(s, trig, k);
      RowLagValues(s, trig, k - 4);
    }
    forall k | 8 <= k < |r| ensures r[k].lag8 == r[k - 8].y {
      RowLagValues(s, trig, k);
      RowLagValues(s, trig, k - 8);
    }
  }

  /** The target and lags of row k, on their own. */
  lemma RowLagValues(s: Series, trig: Features.Trig, k: int)
    requires 0 <= k < |WeeklyTable(s, trig)|
    ensures var r, v := WeeklyTable(s, trig)[k], s.values;
      && r.y == v[k + 8] && r.lag2 == v[k + 6] && r.lag3 == v[k + 5] && r.lag4 == v[k + 4] && r.lag8 == v[k]
  {
    RowFields(s, trig, k);
  }

  lemma TableMeans(s: Series, trig: Features.Trig)
    ensures var r := WeeklyTable(s, trig);
      forall k :: 0 <= k < |r| ==>
        r[k].ma3 == (r[k].y + r[k].lag1 + r[k].lag2) / 3.0
        && r[k].ma4 == (r[k].y + r[k].lag1 + r[k].lag2 + r[k].lag3) / 4.0
  {
    var r := WeeklyTable(s, trig);
    forall k | 0 <= k < |r|
      ensures r[k].ma3 == (r[k].y + r[k].lag1 + r[k].lag2) / 3.0
      ensures r[k].ma4 == (r[k].y + r[k].lag1 + r[k].lag2 + r[k].lag3) / 4.0
    {
      RowFields(s, trig, k);
    }
  }

  /** Row k of the table is week k + 8 of the series. */
  lemma RowFields(s: Series, trig: Features.Trig, k: int)
    requires 0 <= k < |WeeklyTable(s, trig)|
    ensures var r, v := WeeklyTable(s, trig)[k], s.values;
      && r.monday == MondayOf(s.start + k + 8) && r.y == v[k + 8]
      && r.lag1 == v[k + 7] && r.lag2 == v[k + 6] && r.lag3 == v[k + 5]
      && r.lag4 == v[k + 4] && r.lag8 == v[k]
      && r.ma3 == (v[k + 8] + v[k + 7] + v[k + 6]) / 3.0
      && r.ma4 == (v[k + 8] + v[k + 7] + v[k + 6] + v[k + 5]) / 4.0
  {
    assert WeeklyTable(s, trig)[k] == WeekRowAt(s, k + 8, trig);
  }

  /** The twelve model inputs of a row, in `FEATURE_COLS` order. */
  function Vector(r: WeekRow): (v: seq<real>)
    ensures |v| == 12
  {
    [r.y, r.year as real, r.week as real, r.sin, r.cos, r.lag1, r.lag2, r.lag3, r.lag4, r.lag8, r.ma3, r.ma4]
  }

  /** The weekly table of one product, and `weekly.tail(SEQ)`; the page
      stops for a product without rows and for fewer than 12 rows. */
  function WeeklyWindow(t: Table, product: string, trig: Features.Trig): Result<seq<WeekRow>>
  {
    var sub := RowsOf(t.rows, product);
    if sub == [] then Err(NoDataForProduct)
    else
      var table := WeeklyTable(Aggregate(WeekEntries(sub)), trig);
      if |table| < 12 then Err(TooFewWeeks) else Ok(table[|table| - 12..])
  }

  /** The window is the last 12 rows; the page stops exactly when the
      product has no rows or its weeks, first to last, number fewer than
      20 (eight of them only feed `lag_8`). */
  lemma WeeklyWindowOutcome(t: Table, product: string, trig: Features.Trig)
    ensures var r := WeeklyWindow(t, product, trig);
      var s := Aggregate(WeekEntries(RowsOf(t.rows, product)));
      && (r == Err(NoDataForProduct) <==> RowsOf(t.rows, product) == [])
      && (r == Err(TooFewWeeks) <==> RowsOf(t.rows, product) != [] && |s.values| < 20)
      && (r.Ok? ==> |r.value| == 12 && r.value == WeeklyTable(s, trig)[|s.values| - 20..])
  {
  }

  /** Consecutive feature vectors that keep the table's relations: each
      row's lags are the targets of the rows before it, as far back as the
      window reaches, and its moving averages are the means of its target
      and lags. */
  predicate Consistent(w: seq<seq<real>>)
  {
    && (forall k :: 0 <= k < |w| ==> |w[k]| == 12)
    && (forall k :: 0 <= k < |w| ==>
          w[k][10] == (w[k][0] + w[k][5] + w[k][6]) / 3.0
          && w[k][11] == (w[k][0] + w[k][5] + w[k][6] + w[k][7]) / 4.0)
    && (forall k :: 1 <= k < |w| ==> w[k][5] == w[k - 1][0])
    && (forall k :: 2 <= k < |w| ==> w[k][6] == w[k - 2][0])
    && (forall k :: 3 <= k < |w| ==> w[k][7] == w[k - 3][0])
    && (forall k :: 4 <= k < |w| ==> w[k][8] == w[k - 4][0])
    && (forall k :: 8 <= k < |w| ==> w[k][9] == w[k - 8][0])
  }

  function Vectors(rows: seq<WeekRow>): (w: seq<seq<real>>)
    ensures |w| == |rows| && forall k :: 0 <= k < |rows| ==> w[k] == Vector(rows[k])
  {
    seq(|rows|, k requires 0 <= k < |rows| => Vector(rows[k]))
  }

  /** The unscaled window the page builds is consistent. */
  lemma WindowConsistent(t: Table, product: string, trig: Features.Trig)
    requires WeeklyWindow(t, product, trig).Ok?
    ensures Consistent(Vectors(WeeklyWindow(t, product, trig).value))
  {
    var s := Aggregate(WeekEntries(RowsOf(t.rows, product)));
    var table := WeeklyTable(s, trig);
    WeeklyTableLags(s, trig);
    TailConsistent(table, |table| - 12);
  }

  /** The vectors of any stretch of rows that keep the table's relations
      are consistent. */
  lemma TailConsistent(r: seq<WeekRow>, o: nat)
    requires o <= |r|
    requires forall k :: 1 <= k < |r| ==> r[k].lag1 == r[k - 1].y
    requires forall k :: 2 <= k < |r| ==> r[k].lag2 == r[k - 2].y
    requires forall k :: 3 <= k < |r| ==> r[k].lag3 == r[k - 3].y
    requires forall k :: 4 <= k < |r| ==> r[k].lag4 == r[k - 4].y
    requires forall k :: 8 <= k < |r| ==> r[k].lag8 == r[k - 8].y
    requires forall k :: 0 <= k < |r| ==>
      r[k].ma3 == (r[k].y + r[k].lag1 + r[k].lag2) / 3.0
      && r[k].ma4 == (r[k].y + r[k].lag1 + r[k].lag2 + r[k].lag3) / 4.0
    ensures Consistent(Vectors(r[o..]))
  {
    var w := Vectors(r[o..]);
    forall k | 0 <= k < |w|
      ensures w[k][0] == r[o + k].y && w[k][5] == r[o + k].lag1 && w[k][6] == r[o + k].lag2
      ensures w[k][7] == r[o + k].lag3 && w[k][8] == r[o + k].lag4 && w[k][9] == r[o + k].lag8
      ensures w[k][10] == r[o + k].ma3 && w[k][11] == r[o + k].ma4
    {
      assert r[o..][k] == r[o + k];
    }
  }

  // ----- Target month (lines 146-158, 245-249)

  /** The year of the target month: the next year when the month is not
      after the last data month, otherwise the last data year. */
  function TargetYear(lastYear: int, lastMonth: int, target: int): int
  {
    if target <= lastMonth then lastYear + 1 else lastYear
  }

  /** The target month is the first month after the last data month that
      has the chosen month of the year. */
  lemma TargetYearIsNext(lastYear: int, lastMonth: int, target: int)
    requires 1 <= lastMonth <= 12 && 1 <= target <= 12
    ensures var last, mi := MonthIndex(Date(lastYear, lastMonth, 1)), MonthIndex(Date(TargetYear(lastYear, lastMonth, target), target, 1));
      && last < mi <= last + 12
      && MonthOfYear(mi) == target
      && forall m :: last < m < mi ==> MonthOfYear(m) != target
  {
  }

  /** The loop stepping `first_day` from the first of the month to its
      first Monday. */
  method FirstMonday(year: int, month: int) returns (z: int)
    requires 1 <= month <= 12
    ensures IsMonday(z)
    ensures DaysFromCivil(year, month, 1) <= z <= DaysFromCivil(year, month, 7)
    ensures forall x :: DaysFromCivil(year, month, 1) <= x < z ==> !IsMonday(x)
  {
    DaysFromCivilShift(year, month, 1, 6);
    z := StepToMonday(DaysFromCivil(year, month, 1));
  }

  /** `while first_day.weekday() != 0: first_day += 1 day`: at most six
      steps reach the first Monday on or after the start. */
  method StepToMonday(start: int) returns (z: int)
    ensures IsMonday(z) && start <= z <= start + 6
    ensures forall x :: start <= x < z ==> !IsMonday(x)
  {
    ghost var ahead := (7 - Weekday(start)) % 7;
    assert IsMonday(start + ahead);
    z := start;
    while Weekday(z) != 0
      invariant start <= z <= start + ahead
      invariant forall x :: start <= x < z ==> !IsMonday(x)
      decreases start + ahead - z
    {
      z := z + 1;
    }
  }

  /** The first Monday is one of the month's first seven days. */
  lemma FirstMondayDay(year: int, month: int, z: int)
    requires 1 <= month <= 12
    requires DaysFromCivil(year, month, 1) <= z <= DaysFromCivil(year, month, 7)
    ensures exists d :: 1 <= d <= 7 && z == DaysFromCivil(year, month, d)
  {
    var d := z - DaysFromCivil(year, month, 1) + 1;
    DaysFromCivilShift(year, month, 1, d - 1);
    DaysFromCivilShift(year, month, 1, 6);
  }

  /** `pd.date_range(start=first_day, periods=n, freq="W-MON")` from a
      Monday. */
  function FutureMondays(first: int, n: nat): (r: seq<int>)
    requires IsMonday(first)
    ensures |r| == n
    ensures n > 0 ==> r[0] == first
    ensures forall k :: 0 <= k < n ==> IsMonday(r[k])
    ensures forall k :: 1 <= k < n ==> r[k] == r[k - 1] + 7
  {
    seq(n, k requires 0 <= k < n => first + 7 * k)
  }

  // ----- Model files (lines 176-185)

  /** `produk.replace(" ", "_").replace(".", "").replace("/", "")
      .replace("%", "pct")`. */
  function CleanName(s: string): (r: string)
    ensures ' ' !in r && '.' !in r && '/' !in r && '%' !in r
  {
    var a := ReplaceAll(s, " ", "_");
    var b := ReplaceAll(a, ".", "");
    var c := ReplaceAll(b, "/", "");
    ReplaceRemovesChar(s, ' ', "_");
    ReplaceRemovesChar(a, '.', "");
    ReplaceKeepsAbsent(a, ".", "", ' ');
    ReplaceRemovesChar(b, '/', "");
    ReplaceKeepsAbsent(b, "/", "", ' ');
    ReplaceKeepsAbsent(b, "/", "", '.');
    ReplaceRemovesChar(c, '%', "pct");
    ReplaceKeepsAbsent(c, "%", "pct", ' ');
    ReplaceKeepsAbsent(c, "%", "pct", '.');
    ReplaceKeepsAbsent(c, "%", "pct", '/');
    ReplaceAll(c, "%", "pct")
  }

  /** Cleaning a clean name changes nothing. */
  lemma CleanNameIdempotent(s: string)
    ensures CleanName(CleanName(s)) == CleanName(s)
  {
    var r := CleanName(s);
    ReplaceCharAbsent(r, ' ', "_");
    ReplaceCharAbsent(r, '.', "");
    ReplaceCharAbsent(r, '/', "");
    ReplaceCharAbsent(r, '%', "pct");
  }

  datatype ModelFiles = ModelFiles(model: string, scaler: string)

  /** `model_<clean>.h5` and `scaler_<clean>.pkl` in `weekly_models`; the
      page stops when either is missing. `present` stands for
      `Path.exists`. */
  function WeeklyModelFiles(product: string, present: string -> bool): (r: Result<ModelFiles>)
    ensures r.Ok? <==> present("model_" + CleanName(product) + ".h5") && present("scaler_" + CleanName(product) + ".pkl")
    ensures r.Err? ==> r.error == WeeklyModelNotFound
    ensures r.Ok? ==> r.value == ModelFiles("model_" + CleanName(product) + ".h5", "scaler_" + CleanName(product) + ".pkl")
  {
    var clean := CleanName(product);
    var m, sc := "model_" + clean + ".h5", "scaler_" + clean + ".pkl";
    if !present(m) || !present(sc) then Err(WeeklyModelNotFound) else Ok(ModelFiles(m, sc))
  }

  /** Products whose names differ only in the characters the cleaning
      drops share their model files. */
  lemma CleanNameCollides()
    ensures CleanName("A.B") == CleanName("AB")
  {
    ReplaceCharAbsent("A.B", ' ', "_");
    ReplaceAround("A", '.', "B", '.', "");
    ReplaceCharAbsent("AB", '/', "");
    ReplaceCharAbsent("AB", '%', "pct");
    ReplaceCharAbsent("AB", ' ', "_");
    ReplaceCharAbsent("AB", '.', "");
  }

  // ----- The forecast loop (lines 197-237)

  /** A window of the loop: 12 rows of the 12 features. */
  predicate Shaped(w: seq<seq<real>>)
  {
    |w| == 12 && forall k :: 0 <= k < 12 ==> |w[k]| == 12
  }

  /** `new_week = last_week + i`, with 52 taken off once, and the year
      moved on, when it passes 52. */
  function RolledWeek(lastWeek: int, lastYear: int, i: int): (r: WeekYear)
    ensures 52 * (r.year - lastYear) + r.week == lastWeek + i
    ensures 1 <= lastWeek <= 53 && 1 <= i <= 4 ==> 1 <= r.week <= 52 && lastYear <= r.year <= lastYear + 1
  {
    var w := lastWeek + i;
    if w > 52 then WeekYear(w - 52, lastYear + 1) else WeekYear(w, lastYear)
  }

  /** After ISO week 53 of 2020 (Monday 2020-12-28) the next Monday,
      2021-01-04, is ISO week 1 of 2021; the rollover numbers it week 2. */
  lemma RolloverAfter53()
    ensures WeekCode(18624) == WeekYear(53, 2020)
    ensures RolledWeek(53, 2020, 1) == WeekYear(2, 2021)
    ensures WeekCode(18631) == WeekYear(1, 2021)
  {
    CodeOf18624();
    CodeOf18631();
  }

  /** The week number and year of the i-th week after the window's last
      Monday, computed as the table computes them for a Monday. */
  function FutureCode(lastMonday: int, i: int): WeekYear
  {
    WeekCode(lastMonday + 7 * i)
  }

  /** Computed from the dates, the week after ISO week 53 of 2020 is ISO
      week 1 of 2021, as the table would number it. */
  lemma FutureCodeAfter53()
    ensures FutureCode(18624, 1) == WeekYear(1, 2021)
  {
    CodeOf18631();
  }

  lemma CodeOf18624()
    ensures WeekCode(18624) == WeekYear(53, 2020)
  {
    IsoWeekAnchorWeek53();
    CivilOf18624();
  }

  lemma CodeOf18631()
    ensures WeekCode(18631) == WeekYear(1, 2021)
  {
    IsoWeekAnchorAfter53();
    CivilOf18631();
  }

  /** The appended row as the loop writes it (lines 218-234): the new
      target and week, the old target and old lags 1-4 shifted one slot
      right, so that the `lag_8` slot takes the old `lag_4`, and moving
      averages over the shifted lag slots only. */
  function AsWrittenRow(last: seq<real>, pred: real, code: WeekYear, trig: Features.Trig): (r: seq<real>)
    requires |last| == 12
    ensures |r| == 12
  {
    [pred, code.year as real, code.week as real, trig.sin(code.week), trig.cos(code.week),
     last[0], last[5], last[6], last[7], last[8],
     (last[0] + last[5] + last[6]) / 3.0, (last[0] + last[5] + last[6] + last[7]) / 4.0]
  }

  /** The appended row as the table would hold it: `lag_8` is the target
      eight weeks back and the moving averages include the new target. */
  function NextRow(w: seq<seq<real>>, pred: real, code: WeekYear, trig: Features.Trig): (r: seq<real>)
    requires Shaped(w)
    ensures |r| == 12
  {
    var last := w[11];
    [pred, code.year as real, code.week as real, trig.sin(code.week), trig.cos(code.week),
     last[0], last[5], last[6], last[7], w[4][0],
     (pred + last[0] + last[5]) / 3.0, (pred + last[0] + last[5] + last[6]) / 4.0]
  }

  /** `np.vstack([current_seq[0, 1:], last_features])`: the oldest row
      goes, the other 11 keep their order and the new row comes last. */
  function Slide(w: seq<seq<real>>, row: seq<real>): seq<seq<real>>
    requires |w| == 12
  {
    w[1..] + [row]
  }

  /** Rebuilding the last row slot by slot, as the loop does. */
  method RebuildRow(w: seq<seq<real>>, pred: real, code: WeekYear, trig: Features.Trig) returns (row: seq<real>)
    requires Shaped(w)
    ensures row == AsWrittenRow(w[11], pred, code, trig)
  {
    var last := w[11];
    var a := new real[12];
    a[0] := pred;
    a[1] := code.year as real;
    a[2] := code.week as real;
    a[3] := trig.sin(code.week);
    a[4] := trig.cos(code.week);
    a[5] := last[0];
    a[6] := last[5];
    a[7] := last[6];
    a[8] := last[7];
    a[9] := last[8];
    a[10] := (a[5] + a[6] + a[7]) / 3.0;
    a[11] := (a[5] + a[6] + a[7] + a[8]) / 4.0;
    row := [a[0], a[1], a[2], a[3], a[4], a[5], a[6], a[7], a[8], a[9], a[10], a[11]];
  }

  /** The same rebuild writing the slots the table's relations call for. */
  method BuildNextRow(w: seq<seq<real>>, pred: real, code: WeekYear, trig: Features.Trig) returns (row: seq<real>)
    requires Shaped(w)
    ensures row == NextRow(w, pred, code, trig)
  {
    var last := w[11];
    var a := new real[12];
    a[0] := pred;
    a[1] := code.year as real;
    a[2] := code.week as real;
    a[3] := trig.sin(code.week);
    a[4] := trig.cos(code.week);
    a[5] := last[0];
    a[6] := last[5];
    a[7] := last[6];
    a[8] := last[7];
    a[9] := w[4][0];
    a[10] := (a[0] + a[5] + a[6]) / 3.0;
    a[11] := (a[0] + a[5] + a[6] + a[7]) / 4.0;
    row := [a[0], a[1], a[2], a[3], a[4], a[5], a[6], a[7], a[8], a[9], a[10], a[11]];
  }

  /** Sliding in the corrected row keeps a consistent window consistent. */
  lemma NextRowKeepsConsistent(w: seq<seq<real>>, pred: real, code: WeekYear, trig: Features.Trig)
    requires Shaped(w) && Consistent(w)
    ensures Shaped(Slide(w, NextRow(w, pred, code, trig)))
    ensures Consistent(Slide(w, NextRow(w, pred, code, trig)))
  {
    var row := NextRow(w, pred, code, trig);
    assert row[5] == w[11][0] && row[6] == w[10][0] && row[7] == w[9][0];
    assert row[8] == w[8][0] && row[9] == w[4][0];
    SlideConsistent(w, row);
  }

  /** Sliding in a row whose lags are the window's targets and whose means
      include its own target keeps the window consistent. */
  lemma SlideConsistent(w: seq<seq<real>>, row: seq<real>)
    requires Shaped(w) && Consistent(w) && |row| == 12
    requires row[5] == w[11][0] && row[6] == w[10][0] && row[7] == w[9][0]
    requires row[8] == w[8][0] && row[9] == w[4][0]
    requires row[10] == (row[0] + row[5] + row[6]) / 3.0
    requires row[11] == (row[0] + row[5] + row[6] + row[7]) / 4.0
    ensures Shaped(Slide(w, row)) && Consistent(Slide(w, row))
  {
    var v := Slide(w, row);
    assert forall k :: 0 <= k < 11 ==> v[k] == w[k + 1];
    assert v[11] == row;
    forall k | 1 <= k < 12 ensures v[k][5] == v[k - 1][0] && (k >= 2 ==> v[k][6] == v[k - 2][0]) {
      if k < 11 {
        assert v[k] == w[k + 1] && v[k - 1] == w[k];
      }
    }
    forall k | 3 <= k < 12 ensures v[k][7] == v[k - 3][0] && (k >= 4 ==> v[k][8] == v[k - 4][0]) {
      if k < 11 {
        assert v[k] == w[k + 1] && v[k - 3] == w[k - 2];
      }
    }
    forall k | 8 <= k < 12 ensures v[k][9] == v[k - 8][0] {
      if k < 11 {
        assert v[k] == w[k + 1] && v[k - 8] == w[k - 7];
      }
    }
  }

  /** The row the loop writes keeps a consistent window consistent only
      when three unrelated values coincide: the targets 8 and 5 weeks
      before the new week, and the new prediction with the targets 3 and
      4 weeks before it. */
  lemma AsWrittenBreaksWindow(w: seq<seq<real>>, pred: real, code: WeekYear, trig: Features.Trig)
    requires Shaped(w) && Consistent(w)
    ensures Consistent(Slide(w, AsWrittenRow(w[11], pred, code, trig)))
        <==> w[7][0] == w[4][0] && pred == w[9][0] && pred == w[8][0]
  {
    var row := AsWrittenRow(w[11], pred, code, trig);
    var v := Slide(w, row);
    assert forall k :: 0 <= k < 11 ==> v[k] == w[k + 1];
    assert v[11] == row;
    if w[7][0] == w[4][0] && pred == w[9][0] && pred == w[8][0] {
      assert Consistent(v);
    }
    if Consistent(v) {
      assert v[11][9] == v[3][0];
      assert v[11][10] == (v[11][0] + v[11][5] + v[11][6]) / 3.0;
      assert v[11][11] == (v[11][0] + v[11][5] + v[11][6] + v[11][7]) / 4.0;
    }
  }

  /** The predictions and the window after n steps of the loop, each step
      predicting from the window and sliding in the corrected row of the
      next week. */
  function Run(w: seq<seq<real>>, net: seq<seq<real>> -> real, lastMonday: int, trig: Features.Trig, n: nat)
    : (r: (seq<real>, seq<seq<real>>))
    requires Shaped(w)
    ensures |r.0| == n && Shaped(r.1)
  {
    if n == 0 then ([], w)
    else
      var (p, v) := Run(w, net, lastMonday, trig, n - 1);
      var row := NextRow(v, net(v), FutureCode(lastMonday, n), trig);
      (p + [net(v)], Slide(v, row))
  }

  /** The loop keeps the window consistent. */
  lemma {:induction false} RunConsistent(w: seq<seq<real>>, net: seq<seq<real>> -> real, lastMonday: int, trig: Features.Trig, n: nat)
    requires Shaped(w) && Consistent(w)
    ensures Consistent(Run(w, net, lastMonday, trig, n).1)
  {
    if n > 0 {
      RunConsistent(w, net, lastMonday, trig, n - 1);
      var v := Run(w, net, lastMonday, trig, n - 1).1;
      NextRowKeepsConsistent(v, net(v), FutureCode(lastMonday, n), trig);
    }
  }

  /** Each step drops the oldest row, keeps the other 11 in order and
      appends the new row, whose target is the step's prediction. */
  lemma RunStep(w: seq<seq<real>>, net: seq<seq<real>> -> real, lastMonday: int, trig: Features.Trig, n: nat)
    requires Shaped(w) && n > 0
    ensures var r, q := Run(w, net, lastMonday, trig, n), Run(w, net, lastMonday, trig, n - 1);
      && r.0 == q.0 + [net(q.1)]
      && r.1 == q.1[1..] + [NextRow(q.1, net(q.1), FutureCode(lastMonday, n), trig)]
      && r.1[..11] == q.1[1..] && r.0[..n - 1] == q.0 && r.1[11][0] == r.0[n - 1]
  {
  }

  /** After n <= 12 steps the window still holds its last 12 - n
      original rows, in order, at its front. */
  lemma {:induction false} RunKeepsRows(w: seq<seq<real>>, net: seq<seq<real>> -> real, lastMonday: int, trig: Features.Trig, n: nat)
    requires Shaped(w) && n <= 12
    ensures Run(w, net, lastMonday, trig, n).1[..12 - n] == w[n..]
  {
    if n > 0 {
      RunKeepsRows(w, net, lastMonday, trig, n - 1);
      RunStep(w, net, lastMonday, trig, n);
      var q := Run(w, net, lastMonday, trig, n - 1);
      DropOldest(q.1, w, Run(w, net, lastMonday, trig, n).1, n);
    }
  }

  lemma DropOldest(q: seq<seq<real>>, w: seq<seq<real>>, r: seq<seq<real>>, n: int)
    requires |q| == |r| == |w| == 12 && 0 < n <= 12
    requires q[..13 - n] == w[n - 1..]
    requires r[..11] == q[1..]
    ensures r[..12 - n] == w[n..]
  {
    assert r[..12 - n] == q[1..13 - n];
  }

  /** The forecast loop of lines 202-237, with the week codes and the row
      rebuilt as the table defines them. */
  method Rollout(window: seq<seq<real>>, net: seq<seq<real>> -> real, lastMonday: int, trig: Features.Trig, n: nat)
    returns (preds: seq<real>, cur: seq<seq<real>>)
    requires Shaped(window)
    ensures (preds, cur) == Run(window, net, lastMonday, trig, n)
    ensures Consistent(window) ==> Consistent(cur)
  {
    preds, cur := [], window;
    for i := 1 to n + 1
      invariant (preds, cur) == Run(window, net, lastMonday, trig, i - 1)
    {
      var p := net(cur);
      preds := preds + [p];
      var row := BuildNextRow(cur, p, FutureCode(lastMonday, i), trig);
      cur := cur[1..] + [row];
    }
    if Consistent(window) {
      RunConsistent(window, net, lastMonday, trig, n);
    }
  }
}
