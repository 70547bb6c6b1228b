/** The monthly feature table of `_build_features` (utils/model_infer.py):
    the target `y`, the month's sine and cosine, `lag1..lagL`, `ma3` and the
    one-hot flags `promoA..promoD` and `holi1..holi4`, with the rows whose
    lags or moving average are undefined dropped. */
module Features {
  import opened Base
  import opened Strings
  import opened Calendar
  import opened Resample
  import opened Monthly

  /** `sin(2*pi*m/12)` and `cos(2*pi*m/12)` for the month m of the year; the
      floating-point functions themselves are not modelled. */
  datatype Trig = Trig(sin: int -> real, cos: int -> real)

  // ----- Column names

  const YCol: string := "y"
  const SinCol: string := "month_sin"
  const CosCol: string := "month_cos"
  const MaCol: string := "ma3"
  const PromoClasses: seq<string> := ["A", "B", "C", "D"]
  const HolidayClasses: seq<nat> := [1, 2, 3, 4]

  function LagName(i: nat): string
  {
    "lag" + NatStr(i)
  }

  function PromoName(k: string): string
  {
    "promo" + k
  }

  function HolidayName(k: nat): string
  {
    "holi" + NatStr(k)
  }

  function LagNames(n: nat): (r: seq<string>)
    ensures |r| == n && forall i :: 0 <= i < n ==> r[i] == LagName(i + 1)
  {
    if n == 0 then [] else LagNames(n - 1) + [LagName(n)]
  }

  function PromoNames(): (r: seq<string>)
    ensures |r| == 4 && forall q :: 0 <= q < 4 ==> r[q] == PromoName(PromoClasses[q])
  {
    seq(4, q requires 0 <= q < 4 => PromoName(PromoClasses[q]))
  }

  function HolidayNames(): (r: seq<string>)
    ensures |r| == 4 && forall q :: 0 <= q < 4 ==> r[q] == HolidayName(HolidayClasses[q])
  {
    seq(4, q requires 0 <= q < 4 => HolidayName(HolidayClasses[q]))
  }

  /** The columns `_build_features` adds after `y`, `month_sin` and
      `month_cos`, in the order it adds them. */
  function AddedNames(L: nat): (r: seq<string>)
    ensures |r| == L + 9
  {
    LagNames(L) + [MaCol] + PromoNames() + HolidayNames()
  }

  /** The columns of the model's input in their natural order (the table
      without `y`). */
  function FeatureColumns(L: nat): (r: seq<string>)
    ensures |r| == L + 11
  {
    [SinCol, CosCol] + AddedNames(L)
  }

  lemma ConcreteFlagNames()
    ensures PromoNames() == ["promoA", "promoB", "promoC", "promoD"]
    ensures HolidayNames() == ["holi1", "holi2", "holi3", "holi4"]
  {
    var p, h := PromoNames(), HolidayNames();
    assert p[0] == "promo" + "A" == "promoA";
    assert p[1] == "promo" + "B" == "promoB";
    assert p[2] == "promo" + "C" == "promoC";
    assert p[3] == "promo" + "D" == "promoD";
    assert NatStr(1) == "1" && NatStr(2) == "2" && NatStr(3) == "3" && NatStr(4) == "4";
    assert h[0] == "holi" + "1" == "holi1";
    assert h[1] == "holi" + "2" == "holi2";
    assert h[2] == "holi" + "3" == "holi3";
    assert h[3] == "holi" + "4" == "holi4";
  }

  predicate Distinct(s: seq<string>)
  {
    forall i, j :: 0 <= i < j < |s| ==> s[i] != s[j]
  }

  function ColumnSet(cs: seq<string>): set<string>
  {
    set c | c in cs
  }

  lemma {:induction false} LagNameInjective(i: nat, j: nat)
    requires LagName(i) == LagName(j)
    ensures i == j
  {
    assert NatStr(i) == LagName(i)[3..] == LagName(j)[3..] == NatStr(j);
    NatStrInjective(i, j);
  }

  lemma LagNamesDistinct(n: nat)
    ensures Distinct(LagNames(n))
  {
    forall i, j | 0 <= i < j < n
      ensures LagNames(n)[i] != LagNames(n)[j]
    {
      if LagName(i + 1) == LagName(j + 1) {
        LagNameInjective(i + 1, j + 1);
      }
    }
  }

  /** Every column name of the table is different, so assigning a column
      always appends it. */
  lemma ColumnNamesDistinct(L: nat)
    ensures Distinct([YCol] + FeatureColumns(L))
  {
    var head, lags, tail := [YCol, SinCol, CosCol], LagNames(L), OtherNames();
    ColumnsInThreeParts(L);
    FixedNamesDistinct();
    LagNamesDistinct(L);
    LagNamesApart(L);
    DistinctConcat3(head, lags, tail);
  }

  /** The names after the lags: `ma3` and the flags. */
  function OtherNames(): seq<string>
  {
    [MaCol] + PromoNames() + HolidayNames()
  }

  lemma ColumnsInThreeParts(L: nat)
    ensures [YCol] + FeatureColumns(L) == [YCol, SinCol, CosCol] + LagNames(L) + OtherNames()
  {
  }

  lemma OtherNamesConcrete()
    ensures OtherNames() == [MaCol, "promoA", "promoB", "promoC", "promoD", "holi1", "holi2", "holi3", "holi4"]
  {
    ConcreteFlagNames();
  }

  /** The names that do not depend on the lag depth are all different. */
  lemma FixedNamesDistinct()
    ensures Distinct([YCol, SinCol, CosCol]) && Distinct(OtherNames())
    ensures forall i :: 0 <= i < 3 ==> [YCol, SinCol, CosCol][i] !in OtherNames()
  {
    OtherNamesConcrete();
  }

  /** A lag name starts with 'l', which no other column name does. */
  lemma LagNamesApart(L: nat)
    ensures forall i :: 0 <= i < L ==> LagNames(L)[i] !in [YCol, SinCol, CosCol] && LagNames(L)[i] !in OtherNames()
  {
    OtherNamesConcrete();
    forall i | 0 <= i < L
      ensures LagNames(L)[i][0] == 'l'
    {
      assert LagNames(L)[i] == "lag" + NatStr(i + 1);
    }
  }

  lemma DistinctConcat3(a: seq<string>, b: seq<string>, c: seq<string>)
    requires Distinct(a) && Distinct(b) && Distinct(c)
    requires forall i :: 0 <= i < |b| ==> b[i] !in a && b[i] !in c
    requires forall i :: 0 <= i < |a| ==> a[i] !in c
    ensures Distinct(a + b + c)
  {
    var s := a + b + c;
    forall i, j | 0 <= i < j < |s|
      ensures s[i] != s[j]
    {
      if i < |a| && |a| <= j < |a| + |b| {
        assert s[j] == b[j - |a|] && s[i] in a;
      } else if |a| <= i < |a| + |b| && |a| + |b| <= j {
        assert s[i] == b[i - |a|] && s[j] in c;
      } else if i < |a| && |a| + |b| <= j {
        assert s[i] == a[i] && s[j] in c;
      }
    }
  }

  // ----- The table under construction and the frame it becomes

  /** A frame whose cells may be missing (NaN): one map per row from column
      name to cell. */
  datatype Table = Table(index: seq<int>, columns: seq<string>, rows: seq<map<string, Option<real>>>)

  /** A frame without missing cells: `index[j]` labels `rows[j]`. */
  datatype Frame = Frame(index: seq<int>, columns: seq<string>, rows: seq<map<string, real>>)

  /** Every row has exactly the table's columns. */
  predicate Rectangular(t: Table)
  {
    |t.index| == |t.rows| && forall k :: 0 <= k < |t.rows| ==> t.rows[k].Keys == ColumnSet(t.columns)
  }

  /** `g[name] = col`: replaces the column if it exists, appends it otherwise. */
  function SetColumn(t: Table, name: string, col: seq<Option<real>>): (r: Table)
    requires |col| == |t.rows|
    ensures r.index == t.index && |r.rows| == |t.rows|
  {
    Table(t.index,
          if name in t.columns then t.columns else t.columns + [name],
          seq(|t.rows|, k requires 0 <= k < |t.rows| => t.rows[k][name := col[k]]))
  }

  /** Assigning the named columns one after the other. */
  function WithColumns(t: Table, names: seq<string>, cols: seq<seq<Option<real>>>): (r: Table)
    requires |names| == |cols| && forall j :: 0 <= j < |cols| ==> |cols[j]| == |t.rows|
    ensures r.index == t.index && |r.rows| == |t.rows|
    decreases |names|
  {
    if names == [] then t
    else SetColumn(WithColumns(t, names[..|names| - 1], cols[..|cols| - 1]), names[|names| - 1], cols[|cols| - 1])
  }

  /** Assigning a new column appends it, gives it the assigned cells and
      leaves the other columns alone. */
  lemma SetColumnFacts(t: Table, name: string, col: seq<Option<real>>)
    requires Rectangular(t) && |col| == |t.rows| && name !in t.columns
    ensures var r := SetColumn(t, name, col);
      && r.columns == t.columns + [name]
      && Rectangular(r)
      && (forall k :: 0 <= k < |t.rows| ==> r.rows[k] == t.rows[k][name := col[k]])
  {
    var r := SetColumn(t, name, col);
    assert ColumnSet(r.columns) == ColumnSet(t.columns) + {name};
  }

  /** Assigning new, distinct columns appends them in order, gives each the
      assigned cells and leaves the other columns alone. */
  lemma WithColumnsFacts(t: Table, names: seq<string>, cols: seq<seq<Option<real>>>)
    requires Rectangular(t)
    requires |names| == |cols| && forall j :: 0 <= j < |cols| ==> |cols[j]| == |t.rows|
    requires Distinct(t.columns + names)
    ensures WithColumns(t, names, cols).columns == t.columns + names
    ensures Rectangular(WithColumns(t, names, cols))
    ensures forall k, j :: 0 <= k < |t.rows| && 0 <= j < |names| ==>
      names[j] in WithColumns(t, names, cols).rows[k]
      && WithColumns(t, names, cols).rows[k][names[j]] == cols[j][k]
    ensures forall k, c :: 0 <= k < |t.rows| && c in t.rows[k] && c !in names ==>
      c in WithColumns(t, names, cols).rows[k]
      && WithColumns(t, names, cols).rows[k][c] == t.rows[k][c]
  {
    WithColumnsShape(t, names, cols);
    WithColumnsCells(t, names, cols);
  }

  /** The columns after the assignments, and every row has them. */
  lemma {:induction false} WithColumnsShape(t: Table, names: seq<string>, cols: seq<seq<Option<real>>>)
    requires Rectangular(t)
    requires |names| == |cols| && forall j :: 0 <= j < |cols| ==> |cols[j]| == |t.rows|
    requires Distinct(t.columns + names)
    ensures WithColumns(t, names, cols).columns == t.columns + names
    ensures Rectangular(WithColumns(t, names, cols))
    decreases |names|
  {
    if names != [] {
      var m := |names| - 1;
      var names', cols' := names[..m], cols[..m];
      assert t.columns + names' == (t.columns + names)[..|t.columns| + m];
      WithColumnsShape(t, names', cols');
      var r' := WithColumns(t, names', cols');
      assert names[m] !in r'.columns by {
        assert r'.columns == (t.columns + names)[..|t.columns| + m];
        assert names[m] == (t.columns + names)[|t.columns| + m];
      }
      SetColumnFacts(r', names[m], cols[m]);
      assert names' + [names[m]] == names;
    }
  }

  /** The cells after the assignments. */
  lemma {:induction false} WithColumnsCells(t: Table, names: seq<string>, cols: seq<seq<Option<real>>>)
    requires Rectangular(t)
    requires |names| == |cols| && forall j :: 0 <= j < |cols| ==> |cols[j]| == |t.rows|
    requires Distinct(t.columns + names)
    ensures forall k, j :: 0 <= k < |t.rows| && 0 <= j < |names| ==>
      names[j] in WithColumns(t, names, cols).rows[k]
      && WithColumns(t, names, cols).rows[k][names[j]] == cols[j][k]
    ensures forall k, c :: 0 <= k < |t.rows| && c in t.rows[k] && c !in names ==>
      c in WithColumns(t, names, cols).rows[k]
      && WithColumns(t, names, cols).rows[k][c] == t.rows[k][c]
    decreases |names|
  {
    if names != [] {
      var m := |names| - 1;
      var names', cols' := names[..m], cols[..m];
      assert t.columns + names' == (t.columns + names)[..|t.columns| + m];
      WithColumnsCells(t, names', cols');
      var r' := WithColumns(t, names', cols');
      var r := WithColumns(t, names, cols);
      assert r == SetColumn(r', names[m], cols[m]);
      forall k, j | 0 <= k < |t.rows| && 0 <= j < |names|
        ensures names[j] in r.rows[k] && r.rows[k][names[j]] == cols[j][k]
      {
        if j < m {
          assert names[j] == names'[j] && cols[j] == cols'[j];
          assert names[j] != names[m] by {
            assert names[j] == (t.columns + names)[|t.columns| + j];
            assert names[m] == (t.columns + names)[|t.columns| + m];
          }
        }
      }
      forall k, c | 0 <= k < |t.rows| && c in t.rows[k] && c !in names
        ensures c in r.rows[k] && r.rows[k][c] == t.rows[k][c]
      {
        assert c !in names';
      }
    }
  }

  // ----- The columns of the table

  function Flag(b: bool): real
  {
    if b then 1.0 else 0.0
  }

  /** `g["y"].shift(i)`. */
  function Shifted(y: seq<real>, i: nat): (r: seq<Option<real>>)
    ensures |r| == |y|
  {
    seq(|y|, t requires 0 <= t < |y| => if t >= i then Some(y[t - i]) else None)
  }

  /** `g["y"].rolling(3).mean()`. */
  function Rolling3(y: seq<real>): (r: seq<Option<real>>)
    ensures |r| == |y|
  {
    seq(|y|, t requires 0 <= t < |y| => if t >= 2 then Some((y[t - 2] + y[t - 1] + y[t]) / 3.0) else None)
  }

  /** The month's code after `reindex(g.index)`; None for an absent column
      or a month without a code. */
  function CodeAt(codes: Option<seq<Option<string>>>, t: int): Option<string>
  {
    if codes.Some? && 0 <= t < |codes.value| then codes.value[t] else None
  }

  /** `(codes.astype(str) == k).astype(int)`, and 0 everywhere when the
      code column is absent. */
  function FlagColumn(codes: Option<seq<Option<string>>>, k: string, n: nat): (r: seq<Option<real>>)
    ensures |r| == n
  {
    seq(n, t requires 0 <= t < n => Some(Flag(CodeAt(codes, t) == Some(k))))
  }

  /** The cells of the columns of AddedNames(L), in the same order. */
  function AddedColumns(m: Monthly, L: nat): (r: seq<seq<Option<real>>>)
    ensures |r| == L + 9 && forall j :: 0 <= j < |r| ==> |r[j]| == |m.y.values|
  {
    var y := m.y.values;
    seq(L, j requires 0 <= j < L => Shifted(y, j + 1))
    + [Rolling3(y)]
    + seq(4, q requires 0 <= q < 4 => FlagColumn(m.promo, PromoClasses[q], |y|))
    + seq(4, q requires 0 <= q < 4 => FlagColumn(m.holiday, NatStr(HolidayClasses[q]), |y|))
  }

  /** `pd.DataFrame({"y": y_m})` joined with `_month_sin_cos`. */
  function BaseTable(m: Monthly, trig: Trig): (t: Table)
    ensures t.columns == [YCol, SinCol, CosCol] && |t.rows| == |m.y.values|
  {
    var y := m.y.values;
    Table(seq(|y|, k requires 0 <= k < |y| => m.y.start + k),
          [YCol, SinCol, CosCol],
          seq(|y|, k requires 0 <= k < |y| =>
            map[YCol := Some(y[k]),
                SinCol := Some(trig.sin(MonthOfYear(m.y.start + k))),
                CosCol := Some(trig.cos(MonthOfYear(m.y.start + k)))]))
  }

  /** `range(1, lags + 1)` is empty for a non-positive depth. */
  function LagDepth(lags: int): nat
  {
    if lags > 0 then lags else 0
  }

  /** The table before `dropna`. */
  function RawFeatures(m: Monthly, lags: int, trig: Trig): Table
  {
    WithColumns(BaseTable(m, trig), AddedNames(LagDepth(lags)), AddedColumns(m, LagDepth(lags)))
  }

  // ----- dropna

  predicate Complete(row: map<string, Option<real>>)
  {
    forall c :: c in row ==> row[c].Some?
  }

  function Strip(row: map<string, Option<real>>): (r: map<string, real>)
    requires Complete(row)
    ensures r.Keys == row.Keys && forall c :: c in row ==> row[c] == Some(r[c])
  {
    map c | c in row :: row[c].value
  }

  /** The first month with a complete row: the lags need `L` months of
      history and the three-month mean needs two. */
  function Warmup(L: nat): (d: nat)
    ensures d >= L && d >= 2 && (d == L || d == 2)
  {
    if L > 2 then L else 2
  }

  /** `g.dropna()`: the complete rows, in order, with their labels. */
  function DropNa(t: Table): (f: Frame)
    requires |t.index| == |t.rows|
    ensures f.columns == t.columns && |f.index| == |f.rows| <= |t.rows|
    decreases |t.rows|
  {
    if t.rows == [] then Frame([], t.columns, [])
    else
      var n := |t.rows| - 1;
      var f := DropNa(Table(t.index[..n], t.columns, t.rows[..n]));
      if Complete(t.rows[n]) then Frame(f.index + [t.index[n]], t.columns, f.rows + [Strip(t.rows[n])])
      else f
  }

  /** When exactly the rows from `d` on are complete, `dropna` keeps the
      suffix from `d`. */
  lemma {:induction false} DropNaSuffix(t: Table, d: nat)
    requires |t.index| == |t.rows|
    requires forall k :: 0 <= k < |t.rows| ==> (Complete(t.rows[k]) <==> k >= d)
    ensures var f := DropNa(t);
      var s := if |t.rows| > d then |t.rows| - d else 0;
      && |f.rows| == s
      && (forall j :: 0 <= j < s ==> f.index[j] == t.index[d + j] && f.rows[j] == Strip(t.rows[d + j]))
    decreases |t.rows|
  {
    if t.rows != [] {
      var n := |t.rows| - 1;
      var t' := Table(t.index[..n], t.columns, t.rows[..n]);
      DropNaSuffix(t', d);
    }
  }

  // ----- The feature frame

  /** `_build_features(y_m, promo_m, holi_m, lags, ma=3)`. */
  function FeatureFrame(m: Monthly, lags: int, trig: Trig): Frame
  {
    var t := RawFeatures(m, lags, trig);
    DropNa(t)
  }

  /** What one row of the feature table holds for month `start + t`: the
      target, the month's encodings, each lag i the value i months earlier,
      `ma3` the mean of the month and the two before it, and each flag 1
      exactly when the month's code is that class. */
  predicate IsFeatureRow(r: map<string, real>, m: Monthly, L: nat, t: int, trig: Trig)
    requires L <= t && 2 <= t < |m.y.values|
  {
    && RowTarget(r, m, L, t, trig)
    && RowLags(r, m, L, t)
    && RowMovingAverage(r, m, t)
    && RowPromoFlags(r, m, t)
    && RowHolidayFlags(r, m, t)
  }

  predicate RowTarget(r: map<string, real>, m: Monthly, L: nat, t: int, trig: Trig)
    requires 0 <= t < |m.y.values|
  {
    && r.Keys == ColumnSet([YCol] + FeatureColumns(L))
    && YCol in r && r[YCol] == m.y.values[t]
    && SinCol in r && r[SinCol] == trig.sin(MonthOfYear(m.y.start + t))
    && CosCol in r && r[CosCol] == trig.cos(MonthOfYear(m.y.start + t))
  }

  predicate RowLags(r: map<string, real>, m: Monthly, L: nat, t: int)
    requires L <= t < |m.y.values|
  {
    forall i :: 1 <= i <= L ==> LagName(i) in r && r[LagName(i)] == m.y.values[t - i]
  }

  predicate RowMovingAverage(r: map<string, real>, m: Monthly, t: int)
    requires 2 <= t < |m.y.values|
  {
    MaCol in r && r[MaCol] == (m.y.values[t - 2] + m.y.values[t - 1] + m.y.values[t]) / 3.0
  }

  predicate RowPromoFlags(r: map<string, real>, m: Monthly, t: int)
  {
    forall q :: 0 <= q < 4 ==>
      PromoName(PromoClasses[q]) in r
      && r[PromoName(PromoClasses[q])] == Flag(CodeAt(m.promo, t) == Some(PromoClasses[q]))
  }

  predicate RowHolidayFlags(r: map<string, real>, m: Monthly, t: int)
  {
    forall q :: 0 <= q < 4 ==>
      HolidayName(HolidayClasses[q]) in r
      && r[HolidayName(HolidayClasses[q])] == Flag(CodeAt(m.holiday, t) == Some(NatStr(HolidayClasses[q])))
  }

  lemma BaseTableRectangular(m: Monthly, trig: Trig)
    ensures Rectangular(BaseTable(m, trig))
  {
    var b := BaseTable(m, trig);
    forall k | 0 <= k < |b.rows|
      ensures b.rows[k].Keys == ColumnSet(b.columns)
    {
      assert b.rows[k].Keys == {YCol, SinCol, CosCol};
    }
  }

  /** Assigning the added columns keeps the cells of `y`, `month_sin` and
      `month_cos`. */
  lemma BaseCellsKept(b: Table, names: seq<string>, cols: seq<seq<Option<real>>>, c: string)
    requires Rectangular(b) && b.columns == [YCol, SinCol, CosCol] && c in b.columns
    requires |names| == |cols| && forall j :: 0 <= j < |cols| ==> |cols[j]| == |b.rows|
    requires Distinct(b.columns + names)
    ensures forall k :: 0 <= k < |b.rows| ==>
      c in b.rows[k] && c in WithColumns(b, names, cols).rows[k]
      && WithColumns(b, names, cols).rows[k][c] == b.rows[k][c]
  {
    WithColumnsFacts(b, names, cols);
    assert c in ColumnSet(b.columns);
    var i :| 0 <= i < 3 && b.columns[i] == c;
    assert c !in names by {
      forall j | 0 <= j < |names|
        ensures names[j] != c
      {
        assert (b.columns + names)[i] == c;
        assert names[j] == (b.columns + names)[3 + j];
      }
    }
  }

  /** The raw table's columns: `y`, then the model's columns in their
      natural order. */
  lemma RawFeaturesShape(m: Monthly, lags: int, trig: Trig, t: Table)
    requires t == RawFeatures(m, lags, trig)
    ensures t.columns == [YCol] + FeatureColumns(LagDepth(lags))
    ensures Rectangular(t)
    ensures forall k, j :: 0 <= k < |m.y.values| && 0 <= j < LagDepth(lags) + 9 ==>
      AddedNames(LagDepth(lags))[j] in t.rows[k]
      && t.rows[k][AddedNames(LagDepth(lags))[j]] == AddedColumns(m, LagDepth(lags))[j][k]
  {
    var L := LagDepth(lags);
    var b := BaseTable(m, trig);
    ColumnNamesDistinct(L);
    assert b.columns + AddedNames(L) == [YCol] + FeatureColumns(L);
    BaseTableRectangular(m, trig);
    WithColumnsFacts(b, AddedNames(L), AddedColumns(m, L));
  }

  /** The raw table's month labels and the cells of `y` and the month
      encodings. */
  lemma RawFeaturesBase(m: Monthly, lags: int, trig: Trig, t: Table)
    requires t == RawFeatures(m, lags, trig)
    ensures forall k :: 0 <= k < |m.y.values| ==> t.index[k] == m.y.start + k
    ensures forall k :: 0 <= k < |m.y.values| ==>
      && YCol in t.rows[k] && t.rows[k][YCol] == Some(m.y.values[k])
      && SinCol in t.rows[k] && t.rows[k][SinCol] == Some(trig.sin(MonthOfYear(m.y.start + k)))
      && CosCol in t.rows[k] && t.rows[k][CosCol] == Some(trig.cos(MonthOfYear(m.y.start + k)))
  {
    var L := LagDepth(lags);
    var b := BaseTable(m, trig);
    ColumnNamesDistinct(L);
    assert b.columns + AddedNames(L) == [YCol] + FeatureColumns(L);
    BaseTableRectangular(m, trig);
    BaseCellsKept(b, AddedNames(L), AddedColumns(m, L), YCol);
    BaseCellsKept(b, AddedNames(L), AddedColumns(m, L), SinCol);
    BaseCellsKept(b, AddedNames(L), AddedColumns(m, L), CosCol);
  }

  // Which column sits at each position of AddedNames and AddedColumns.

  lemma LagAt(m: Monthly, L: nat, j: int, k: int)
    requires 0 <= j < L && 0 <= k < |m.y.values|
    ensures AddedNames(L)[j] == LagName(j + 1)
    ensures AddedColumns(m, L)[j][k] == if k >= j + 1 then Some(m.y.values[k - j - 1]) else None
  {
    assert AddedColumns(m, L)[j] == Shifted(m.y.values, j + 1);
  }

  lemma MaAt(m: Monthly, L: nat, k: int)
    requires 0 <= k < |m.y.values|
    ensures AddedNames(L)[L] == MaCol
    ensures AddedColumns(m, L)[L][k]
         == if k >= 2 then Some((m.y.values[k - 2] + m.y.values[k - 1] + m.y.values[k]) / 3.0) else None
  {
    assert AddedColumns(m, L)[L] == Rolling3(m.y.values);
  }

  lemma LagColumn(m: Monthly, L: nat, j: int)
    requires 0 <= j < L
    ensures AddedNames(L)[j] == LagName(j + 1)
    ensures AddedColumns(m, L)[j] == Shifted(m.y.values, j + 1)
  {
  }

  lemma MaColumn(m: Monthly, L: nat)
    ensures AddedNames(L)[L] == MaCol
    ensures AddedColumns(m, L)[L] == Rolling3(m.y.values)
  {
  }

  lemma PromoColumn(m: Monthly, L: nat, q: int)
    requires 0 <= q < 4
    ensures AddedNames(L)[L + 1 + q] == PromoName(PromoClasses[q])
    ensures AddedColumns(m, L)[L + 1 + q] == FlagColumn(m.promo, PromoClasses[q], |m.y.values|)
  {
  }

  lemma HolidayColumn(m: Monthly, L: nat, q: int)
    requires 0 <= q < 4
    ensures AddedNames(L)[L + 5 + q] == HolidayName(HolidayClasses[q])
    ensures AddedColumns(m, L)[L + 5 + q] == FlagColumn(m.holiday, NatStr(HolidayClasses[q]), |m.y.values|)
  {
    assert AddedNames(L)[L + 5 + q] == HolidayNames()[q];
  }

  lemma PromoAt(m: Monthly, L: nat, q: int, k: int)
    requires 0 <= q < 4 && 0 <= k < |m.y.values|
    ensures AddedNames(L)[L + 1 + q] == PromoName(PromoClasses[q])
    ensures AddedColumns(m, L)[L + 1 + q][k] == Some(Flag(CodeAt(m.promo, k) == Some(PromoClasses[q])))
  {
    assert AddedColumns(m, L)[L + 1 + q] == FlagColumn(m.promo, PromoClasses[q], |m.y.values|);
  }

  lemma HolidayAt(m: Monthly, L: nat, q: int, k: int)
    requires 0 <= q < 4 && 0 <= k < |m.y.values|
    ensures AddedNames(L)[L + 5 + q] == HolidayName(HolidayClasses[q])
    ensures AddedColumns(m, L)[L + 5 + q][k] == Some(Flag(CodeAt(m.holiday, k) == Some(NatStr(HolidayClasses[q]))))
  {
    assert AddedColumns(m, L)[L + 5 + q] == FlagColumn(m.holiday, NatStr(HolidayClasses[q]), |m.y.values|);
  }

  /** Every cell of an added column is present from month `max(L, 2)` on. */
  lemma AddedCellPresent(m: Monthly, L: nat, j: int, k: int)
    requires 0 <= j < L + 9 && L <= k && 2 <= k < |m.y.values|
    ensures AddedColumns(m, L)[j][k].Some?
  {
    if j < L {
      LagAt(m, L, j, k);
    } else if j == L {
      MaAt(m, L, k);
    } else if j <= L + 4 {
      PromoAt(m, L, j - L - 1, k);
    } else {
      HolidayAt(m, L, j - L - 5, k);
    }
  }

  /** What row k of the raw table holds, stated without reference to how
      the table is built. */
  predicate RowFacts(m: Monthly, L: nat, trig: Trig, row: map<string, Option<real>>, k: int)
    requires 0 <= k < |m.y.values|
  {
    && row.Keys == ColumnSet([YCol] + FeatureColumns(L))
    && YCol in row && row[YCol] == Some(m.y.values[k])
    && SinCol in row && row[SinCol] == Some(trig.sin(MonthOfYear(m.y.start + k)))
    && CosCol in row && row[CosCol] == Some(trig.cos(MonthOfYear(m.y.start + k)))
    && AddedCells(m, L, row, k)
  }

  /** Row k holds the cells of the added columns for month k. */
  predicate AddedCells(m: Monthly, L: nat, row: map<string, Option<real>>, k: int)
    requires 0 <= k < |m.y.values|
  {
    forall j :: 0 <= j < L + 9 ==>
      AddedNames(L)[j] in row && row[AddedNames(L)[j]] == AddedColumns(m, L)[j][k]
  }

  /** What the raw table holds. */
  predicate RawFacts(m: Monthly, L: nat, trig: Trig, t: Table)
  {
    && t.columns == [YCol] + FeatureColumns(L)
    && |t.index| == |t.rows| == |m.y.values|
    && (forall k :: 0 <= k < |m.y.values| ==> t.index[k] == m.y.start + k)
    && (forall k :: 0 <= k < |m.y.values| ==> RowFacts(m, L, trig, t.rows[k], k))
  }

  lemma RawFeaturesFacts(m: Monthly, lags: int, trig: Trig)
    ensures RawFacts(m, LagDepth(lags), trig, RawFeatures(m, lags, trig))
  {
    var t := RawFeatures(m, lags, trig);
    var L := LagDepth(lags);
    RawFeaturesShape(m, lags, trig, t);
    RawFeaturesBase(m, lags, trig, t);
    forall k | 0 <= k < |m.y.values|
      ensures RowFacts(m, L, trig, t.rows[k], k)
    {
      assert t.rows[k].Keys == ColumnSet(t.columns);
    }
  }

  lemma AllColumns(L: nat)
    ensures [YCol] + FeatureColumns(L) == [YCol, SinCol, CosCol] + AddedNames(L)
  {
  }

  /** A raw row is complete exactly from month `max(L, 2)` on. */
  lemma RowComplete(m: Monthly, L: nat, trig: Trig, row: map<string, Option<real>>, k: int)
    requires 0 <= k < |m.y.values| && RowFacts(m, L, trig, row, k)
    ensures Complete(row) <==> (k >= L && k >= 2)
  {
    if k >= L && k >= 2 {
      LateRowComplete(m, L, trig, row, k);
    } else {
      EarlyRowIncomplete(m, L, row, k);
    }
  }

  lemma LateRowComplete(m: Monthly, L: nat, trig: Trig, row: map<string, Option<real>>, k: int)
    requires L <= k && 2 <= k < |m.y.values| && RowFacts(m, L, trig, row, k)
    ensures Complete(row)
  {
    var names, cols := AddedNames(L), AddedColumns(m, L);
    var all := [YCol] + FeatureColumns(L);
    AllColumns(L);
    forall c | c in row
      ensures row[c].Some?
    {
      assert c in ColumnSet(all);
      var i :| 0 <= i < |all| && all[i] == c;
      if i >= 3 {
        assert names[i - 3] == c && row[c] == cols[i - 3][k];
        AddedCellPresent(m, L, i - 3, k);
      }
    }
  }

  lemma EarlyRowIncomplete(m: Monthly, L: nat, row: map<string, Option<real>>, k: int)
    requires 0 <= k < |m.y.values| && (k < L || k < 2) && AddedCells(m, L, row, k)
    ensures !Complete(row)
  {
    var names, cols := AddedNames(L), AddedColumns(m, L);
    if k < L {
      LagAt(m, L, k, k);
      assert row[names[k]] == cols[k][k] == None;
    } else {
      MaAt(m, L, k);
      assert row[names[L]] == cols[L][k] == None;
    }
  }

  /** A complete raw row, once stripped of its Option wrappers, is a
      feature row. */
  lemma RowIsFeatureRow(m: Monthly, L: nat, trig: Trig, row: map<string, Option<real>>, k: int, r: map<string, real>)
    requires L <= k && 2 <= k < |m.y.values|
    requires RowFacts(m, L, trig, row, k)
    requires Complete(row) && r == Strip(row)
    ensures IsFeatureRow(r, m, L, k, trig)
  {
    RowLagsHold(m, L, row, k, r);
    RowMovingAverageHolds(m, L, row, k, r);
    RowPromoFlagsHold(m, L, row, k, r);
    RowHolidayFlagsHold(m, L, row, k, r);
  }

  lemma RowLagsHold(m: Monthly, L: nat, row: map<string, Option<real>>, k: int, r: map<string, real>)
    requires L <= k < |m.y.values|
    requires AddedCells(m, L, row, k)
    requires Complete(row) && r == Strip(row)
    ensures RowLags(r, m, L, k)
  {
    forall i | 1 <= i <= L
      ensures LagName(i) in r && r[LagName(i)] == m.y.values[k - i]
    {
      LagAt(m, L, i - 1, k);
      assert row[AddedNames(L)[i - 1]] == AddedColumns(m, L)[i - 1][k];
    }
  }

  lemma RowMovingAverageHolds(m: Monthly, L: nat, row: map<string, Option<real>>, k: int, r: map<string, real>)
    requires 2 <= k < |m.y.values|
    requires AddedCells(m, L, row, k)
    requires Complete(row) && r == Strip(row)
    ensures RowMovingAverage(r, m, k)
  {
    MaAt(m, L, k);
    assert row[AddedNames(L)[L]] == AddedColumns(m, L)[L][k];
  }

  lemma RowPromoFlagsHold(m: Monthly, L: nat, row: map<string, Option<real>>, k: int, r: map<string, real>)
    requires 0 <= k < |m.y.values|
    requires AddedCells(m, L, row, k)
    requires Complete(row) && r == Strip(row)
    ensures RowPromoFlags(r, m, k)
  {
    forall q | 0 <= q < 4
      ensures PromoName(PromoClasses[q]) in r
        && r[PromoName(PromoClasses[q])] == Flag(CodeAt(m.promo, k) == Some(PromoClasses[q]))
    {
      PromoAt(m, L, q, k);
      assert row[AddedNames(L)[L + 1 + q]] == AddedColumns(m, L)[L + 1 + q][k];
    }
  }

  lemma RowHolidayFlagsHold(m: Monthly, L: nat, row: map<string, Option<real>>, k: int, r: map<string, real>)
    requires 0 <= k < |m.y.values|
    requires AddedCells(m, L, row, k)
    requires Complete(row) && r == Strip(row)
    ensures RowHolidayFlags(r, m, k)
  {
    forall q | 0 <= q < 4
      ensures HolidayName(HolidayClasses[q]) in r
        && r[HolidayName(HolidayClasses[q])] == Flag(CodeAt(m.holiday, k) == Some(NatStr(HolidayClasses[q])))
    {
      HolidayAt(m, L, q, k);
      assert row[AddedNames(L)[L + 5 + q]] == AddedColumns(m, L)[L + 5 + q][k];
    }
  }

  /** The shape of the raw table, without its cells. */
  lemma RawShape(m: Monthly, lags: int, trig: Trig)
    ensures var t, L := RawFeatures(m, lags, trig), LagDepth(lags);
      && t.columns == [YCol] + FeatureColumns(L)
      && |t.index| == |t.rows| == |m.y.values|
      && (forall k :: 0 <= k < |m.y.values| ==> t.index[k] == m.y.start + k)
      && (forall k :: 0 <= k < |t.rows| ==> (Complete(t.rows[k]) <==> k >= Warmup(L)))
  {
    RawFeaturesFacts(m, lags, trig);
    CompleteFrom(m, LagDepth(lags), trig, RawFeatures(m, lags, trig));
  }

  /** The cells of the raw table. */
  lemma RawCells(m: Monthly, lags: int, trig: Trig)
    ensures var t := RawFeatures(m, lags, trig);
      && |t.rows| == |m.y.values|
      && forall k :: 0 <= k < |m.y.values| ==> RowFacts(m, LagDepth(lags), trig, t.rows[k], k)
  {
    RawFeaturesFacts(m, lags, trig);
  }

  /** `dropna` keeps the raw rows from month `max(L, 2)` on, stripped of
      their Option wrappers. */
  lemma KeptStripped(m: Monthly, lags: int, trig: Trig, d: nat)
    requires d == Warmup(LagDepth(lags))
    ensures var t, f := RawFeatures(m, lags, trig), FeatureFrame(m, lags, trig);
      && |f.rows| == (if |t.rows| > d then |t.rows| - d else 0)
      && (forall j :: 0 <= j < |f.rows| ==> KeptAt(t, f, d, j))
  {
    var t, f := RawFeatures(m, lags, trig), FeatureFrame(m, lags, trig);
    RawShape(m, lags, trig);
    DropNaSuffix(t, d);
    forall j | 0 <= j < |f.rows|
      ensures KeptAt(t, f, d, j)
    {
      assert Complete(t.rows[d + j]);
    }
  }

  /** Row j of `f` is row `d + j` of `t`, complete and stripped. */
  predicate KeptAt(t: Table, f: Frame, d: nat, j: nat)
    requires j < |f.rows|
  {
    d + j < |t.rows| && Complete(t.rows[d + j]) && f.rows[j] == Strip(t.rows[d + j])
  }

  /** Each row `dropna` keeps is a stripped complete raw row, and so a
      feature row. */
  lemma KeptRows(m: Monthly, L: nat, trig: Trig, t: Table, f: Frame, d: nat)
    requires d == Warmup(L)
    requires |t.rows| == |m.y.values|
    requires forall k :: 0 <= k < |m.y.values| ==> RowFacts(m, L, trig, t.rows[k], k)
    requires forall j :: 0 <= j < |f.rows| ==> KeptAt(t, f, d, j)
    ensures FeatureRows(f, m, L, d, trig)
  {
    forall j | 0 <= j < |f.rows|
      ensures FeatureRowAt(f, m, L, d, trig, j)
    {
      assert KeptAt(t, f, d, j);
      RowIsFeatureRow(m, L, trig, t.rows[d + j], d + j, f.rows[j]);
    }
  }

  lemma CompleteFrom(m: Monthly, L: nat, trig: Trig, t: Table)
    requires RawFacts(m, L, trig, t)
    ensures |t.index| == |t.rows|
    ensures forall k :: 0 <= k < |t.rows| ==> (Complete(t.rows[k]) <==> k >= Warmup(L))
  {
    forall k | 0 <= k < |t.rows|
      ensures Complete(t.rows[k]) <==> k >= Warmup(L)
    {
      RowComplete(m, L, trig, t.rows[k], k);
    }
  }

  /** The shape of the feature table: it keeps the months from `max(L, 2)`
      on, so it has `max(0, n - max(L, 2))` rows, and labels each with its
      month. */
  lemma FeatureFrameShape(m: Monthly, lags: int, trig: Trig)
    ensures var f := FeatureFrame(m, lags, trig);
      var L := LagDepth(lags);
      var d := Warmup(L);
      var n := |m.y.values|;
      && f.columns == [YCol] + FeatureColumns(L)
      && |f.rows| == (if n > d then n - d else 0)
      && (forall j :: 0 <= j < |f.rows| ==> f.index[j] == m.y.start + d + j)
  {
    RawShape(m, lags, trig);
    DropNaSuffix(RawFeatures(m, lags, trig), Warmup(LagDepth(lags)));
  }

  /** Row j of `f` is the feature row of month `d + j`. */
  predicate FeatureRows(f: Frame, m: Monthly, L: nat, d: nat, trig: Trig)
    requires d == Warmup(L)
  {
    forall j :: 0 <= j < |f.rows| ==> FeatureRowAt(f, m, L, d, trig, j)
  }

  predicate FeatureRowAt(f: Frame, m: Monthly, L: nat, d: nat, trig: Trig, j: nat)
    requires d == Warmup(L) && j < |f.rows|
  {
    d + j < |m.y.values| && IsFeatureRow(f.rows[j], m, L, d + j, trig)
  }

  /** Each row of the feature table holds the target, its lags, its moving
      average and its flags for its month. */
  lemma FeatureFrameRows(m: Monthly, lags: int, trig: Trig)
    ensures FeatureRows(FeatureFrame(m, lags, trig), m, LagDepth(lags), Warmup(LagDepth(lags)), trig)
  {
    var L, t, f := LagDepth(lags), RawFeatures(m, lags, trig), FeatureFrame(m, lags, trig);
    var d := Warmup(L);
    KeptStripped(m, lags, trig, d);
    RawCells(m, lags, trig);
    KeptRows(m, L, trig, t, f, d);
  }

  // ----- `_build_features`, step by step

  /** Assigning one more column extends the fold by one step. */
  lemma WithColumnsStep(t: Table, names: seq<string>, cols: seq<seq<Option<real>>>, p: nat)
    requires |names| == |cols| && forall j :: 0 <= j < |cols| ==> |cols[j]| == |t.rows|
    requires p < |names|
    ensures WithColumns(t, names[..p + 1], cols[..p + 1])
         == SetColumn(WithColumns(t, names[..p], cols[..p]), names[p], cols[p])
  {
    assert names[..p + 1][..p] == names[..p];
    assert cols[..p + 1][..p] == cols[..p];
  }

  /** The raw table after the first p added columns. */
  function Partial(m: Monthly, trig: Trig, L: nat, p: nat): (t: Table)
    requires p <= L + 9
    ensures |t.rows| == |m.y.values|
  {
    WithColumns(BaseTable(m, trig), AddedNames(L)[..p], AddedColumns(m, L)[..p])
  }

  /** Assigning the next added column extends the partial table by one
      step. */
  lemma PartialStep(m: Monthly, trig: Trig, L: nat, p: nat)
    requires p < L + 9
    ensures Partial(m, trig, L, p + 1) == SetColumn(Partial(m, trig, L, p), AddedNames(L)[p], AddedColumns(m, L)[p])
  {
    WithColumnsStep(BaseTable(m, trig), AddedNames(L), AddedColumns(m, L), p);
  }

  // One step of each loop of `_build_features`.

  lemma LagStep(m: Monthly, trig: Trig, L: nat, i: nat)
    requires 1 <= i <= L
    ensures Partial(m, trig, L, i) == SetColumn(Partial(m, trig, L, i - 1), LagName(i), Shifted(m.y.values, i))
  {
    PartialStep(m, trig, L, i - 1);
    LagColumn(m, L, i - 1);
  }

  lemma MaStep(m: Monthly, trig: Trig, L: nat)
    ensures Partial(m, trig, L, L + 1) == SetColumn(Partial(m, trig, L, L), MaCol, Rolling3(m.y.values))
  {
    PartialStep(m, trig, L, L);
    MaColumn(m, L);
  }

  lemma PromoStep(m: Monthly, trig: Trig, L: nat, q: nat)
    requires q < 4
    ensures Partial(m, trig, L, L + 2 + q)
         == SetColumn(Partial(m, trig, L, L + 1 + q), PromoName(PromoClasses[q]),
                      FlagColumn(m.promo, PromoClasses[q], |m.y.values|))
  {
    PartialStep(m, trig, L, L + 1 + q);
    PromoColumn(m, L, q);
  }

  lemma HolidayStep(m: Monthly, trig: Trig, L: nat, h: nat)
    requires h < 4
    ensures Partial(m, trig, L, L + 6 + h)
         == SetColumn(Partial(m, trig, L, L + 5 + h), HolidayName(HolidayClasses[h]),
                      FlagColumn(m.holiday, NatStr(HolidayClasses[h]), |m.y.values|))
  {
    PartialStep(m, trig, L, L + 5 + h);
    HolidayColumn(m, L, h);
  }

  /** The empty fold and the full fold. */
  lemma PartialEnds(m: Monthly, trig: Trig, L: nat, lags: int)
    requires L == LagDepth(lags)
    ensures Partial(m, trig, L, 0) == BaseTable(m, trig)
    ensures Partial(m, trig, L, L + 9) == RawFeatures(m, lags, trig)
  {
    assert AddedNames(L)[..L + 9] == AddedNames(L);
    assert AddedColumns(m, L)[..L + 9] == AddedColumns(m, L);
  }

  /** `_build_features(y_m, promo_m, holi_m, lags, ma=3)`: the same
      assignments in the same order, then `dropna`. */
  method BuildFeatures(m: Monthly, lags: int, trig: Trig) returns (f: Frame)
    ensures f == FeatureFrame(m, lags, trig)
  {
    var L := LagDepth(lags);
    PartialEnds(m, trig, L, lags);
    var g := BaseTable(m, trig);
    g := AddLagColumns(m, trig, lags, g);
    MaStep(m, trig, L);
    g := SetColumn(g, MaCol, Rolling3(m.y.values));
    g := AddPromoColumns(m, trig, L, g);
    g := AddHolidayColumns(m, trig, L, g);
    f := DropNa(g);
  }

  /** `for i in range(1, lags + 1): g[f"lag{i}"] = g["y"].shift(i)`. */
  method AddLagColumns(m: Monthly, trig: Trig, lags: int, g0: Table) returns (g: Table)
    requires g0 == Partial(m, trig, LagDepth(lags), 0)
    ensures g == Partial(m, trig, LagDepth(lags), LagDepth(lags))
  {
    ghost var L := LagDepth(lags);
    g := g0;
    var i := 1;
    while i <= lags
      invariant 1 <= i <= L + 1
      invariant g == Partial(m, trig, L, i - 1)
    {
      LagStep(m, trig, L, i);
      g := SetColumn(g, LagName(i), Shifted(m.y.values, i));
      i := i + 1;
    }
  }

  /** `for k in ["A","B","C","D"]: g[f"promo{k}"] = ...`. */
  method AddPromoColumns(m: Monthly, trig: Trig, L: nat, g0: Table) returns (g: Table)
    requires g0 == Partial(m, trig, L, L + 1)
    ensures g == Partial(m, trig, L, L + 5)
  {
    g := g0;
    var q := 0;
    while q < 4
      invariant 0 <= q <= 4
      invariant g == Partial(m, trig, L, L + 1 + q)
    {
      PromoStep(m, trig, L, q);
      g := SetColumn(g, PromoName(PromoClasses[q]), FlagColumn(m.promo, PromoClasses[q], |m.y.values|));
      q := q + 1;
    }
  }

  /** `for k in [1,2,3,4]: g[f"holi{k}"] = ...`. */
  method AddHolidayColumns(m: Monthly, trig: Trig, L: nat, g0: Table) returns (g: Table)
    requires g0 == Partial(m, trig, L, L + 5)
    ensures g == Partial(m, trig, L, L + 9)
  {
    g := g0;
    var h := 0;
    while h < 4
      invariant 0 <= h <= 4
      invariant g == Partial(m, trig, L, L + 5 + h)
    {
      HolidayStep(m, trig, L, h);
      g := SetColumn(g, HolidayName(HolidayClasses[h]), FlagColumn(m.holiday, NatStr(HolidayClasses[h]), |m.y.values|));
      h := h + 1;
    }
  }

  // ----- The one-hot flags

  /** Every entry is 0 or 1 and at most one is 1. */
  predicate OneHot(v: seq<real>)
  {
    && (forall q :: 0 <= q < |v| ==> v[q] == 0.0 || v[q] == 1.0)
    && (forall q1, q2 :: 0 <= q1 < |v| && 0 <= q2 < |v| && v[q1] == 1.0 && v[q2] == 1.0 ==> q1 == q2)
  }

  /** The values of the named columns of a row, in order. */
  function CellsOf(r: map<string, real>, names: seq<string>): (v: seq<real>)
    requires forall q :: 0 <= q < |names| ==> names[q] in r
    ensures |v| == |names| && forall q :: 0 <= q < |names| ==> v[q] == r[names[q]]
  {
    seq(|names|, q requires 0 <= q < |names| => r[names[q]])
  }

  /** The flags of row j of the feature table, on their own. */
  lemma FrameRowFlags(m: Monthly, lags: int, trig: Trig, j: int)
    requires 0 <= j < |FeatureFrame(m, lags, trig).rows|
    ensures var r, t := FeatureFrame(m, lags, trig).rows[j], Warmup(LagDepth(lags)) + j;
      RowPromoFlags(r, m, t) && RowHolidayFlags(r, m, t)
  {
    FeatureFrameRows(m, lags, trig);
    RowFlagsAt(FeatureFrame(m, lags, trig), m, LagDepth(lags), Warmup(LagDepth(lags)), trig, j);
  }

  /** Row j of the feature table is month `max(L, 2) + j`: each `lag i`
      holds y of i months earlier and `ma3` the mean of y over that month
      and the two before it. */
  lemma FrameLagsAndMean(m: Monthly, lags: int, trig: Trig, j: int)
    requires 0 <= j < |FeatureFrame(m, lags, trig).rows|
    ensures var r, L, t := FeatureFrame(m, lags, trig).rows[j], LagDepth(lags), Warmup(LagDepth(lags)) + j;
      t < |m.y.values| && RowLags(r, m, L, t) && RowMovingAverage(r, m, t)
  {
    FeatureFrameRows(m, lags, trig);
    RowValuesAt(FeatureFrame(m, lags, trig), m, LagDepth(lags), Warmup(LagDepth(lags)), trig, j);
  }

  lemma RowValuesAt(f: Frame, m: Monthly, L: nat, d: nat, trig: Trig, j: int)
    requires d == Warmup(L) && FeatureRows(f, m, L, d, trig) && 0 <= j < |f.rows|
    ensures d + j < |m.y.values| && RowLags(f.rows[j], m, L, d + j) && RowMovingAverage(f.rows[j], m, d + j)
  {
    assert FeatureRowAt(f, m, L, d, trig, j);
  }

  /** Row k of a table of feature rows has the table's columns and the
      target of its month. */
  lemma FeatureRowCells(f: Frame, m: Monthly, L: nat, d: nat, trig: Trig, k: int)
    requires d == Warmup(L) && FeatureRows(f, m, L, d, trig) && 0 <= k < |f.rows|
    ensures d + k < |m.y.values|
    ensures f.rows[k].Keys == ColumnSet([YCol] + FeatureColumns(L))
    ensures YCol in f.rows[k] && f.rows[k][YCol] == m.y.values[d + k]
  {
    assert FeatureRowAt(f, m, L, d, trig, k);
  }

  lemma RowFlagsAt(f: Frame, m: Monthly, L: nat, d: nat, trig: Trig, j: int)
    requires d == Warmup(L) && FeatureRows(f, m, L, d, trig) && 0 <= j < |f.rows|
    ensures RowPromoFlags(f.rows[j], m, d + j) && RowHolidayFlags(f.rows[j], m, d + j)
  {
    assert FeatureRowAt(f, m, L, d, trig, j);
  }

  /** A row's promotion flags are one-hot, 1 exactly for the month's code,
      and all 0 when there is no code. */
  lemma PromoOneHot(r: map<string, real>, m: Monthly, t: int)
    requires RowPromoFlags(r, m, t)
    ensures forall q :: 0 <= q < 4 ==> PromoNames()[q] in r
    ensures var v := CellsOf(r, PromoNames());
      && OneHot(v)
      && (forall q :: 0 <= q < 4 ==> (v[q] == 1.0 <==> CodeAt(m.promo, t) == Some(PromoClasses[q])))
      && (CodeAt(m.promo, t).None? ==> forall q :: 0 <= q < 4 ==> v[q] == 0.0)
  {
    var v := CellsOf(r, PromoNames());
    forall q1, q2 | 0 <= q1 < 4 && 0 <= q2 < 4 && v[q1] == 1.0 && v[q2] == 1.0
      ensures q1 == q2
    {
      assert PromoClasses[q1] == CodeAt(m.promo, t).value == PromoClasses[q2];
    }
  }

  /** A row's holiday flags likewise; the classes are the numbers 1 to 4,
      compared with the month's code as text. */
  lemma HolidayOneHot(r: map<string, real>, m: Monthly, t: int)
    requires RowHolidayFlags(r, m, t)
    ensures forall q :: 0 <= q < 4 ==> HolidayNames()[q] in r
    ensures var v := CellsOf(r, HolidayNames());
      && OneHot(v)
      && (forall q :: 0 <= q < 4 ==> (v[q] == 1.0 <==> CodeAt(m.holiday, t) == Some(NatStr(HolidayClasses[q]))))
      && (CodeAt(m.holiday, t).None? ==> forall q :: 0 <= q < 4 ==> v[q] == 0.0)
  {
    var v := CellsOf(r, HolidayNames());
    forall q1, q2 | 0 <= q1 < 4 && 0 <= q2 < 4 && v[q1] == 1.0 && v[q2] == 1.0
      ensures q1 == q2
    {
      assert NatStr(HolidayClasses[q1]) == CodeAt(m.holiday, t).value == NatStr(HolidayClasses[q2]);
      NatStrInjective(HolidayClasses[q1], HolidayClasses[q2]);
    }
  }

  /** In every row of the feature table the promotion flags are one-hot and
      mark the month's modal code; without a Promotion column they are all 0. */
  lemma PromoFlagsOneHot(m: Monthly, lags: int, trig: Trig, j: int)
    requires 0 <= j < |FeatureFrame(m, lags, trig).rows|
    ensures var r, t := FeatureFrame(m, lags, trig).rows[j], Warmup(LagDepth(lags)) + j;
      && (forall q :: 0 <= q < 4 ==> PromoNames()[q] in r)
      && OneHot(CellsOf(r, PromoNames()))
      && (forall q :: 0 <= q < 4 ==> (CellsOf(r, PromoNames())[q] == 1.0 <==> CodeAt(m.promo, t) == Some(PromoClasses[q])))
      && (m.promo.None? ==> forall q :: 0 <= q < 4 ==> CellsOf(r, PromoNames())[q] == 0.0)
  {
    FrameRowFlags(m, lags, trig, j);
    PromoOneHot(FeatureFrame(m, lags, trig).rows[j], m, Warmup(LagDepth(lags)) + j);
  }

  /** The same for the holiday flags and the Holiday column. */
  lemma HolidayFlagsOneHot(m: Monthly, lags: int, trig: Trig, j: int)
    requires 0 <= j < |FeatureFrame(m, lags, trig).rows|
    ensures var r, t := FeatureFrame(m, lags, trig).rows[j], Warmup(LagDepth(lags)) + j;
      && (forall q :: 0 <= q < 4 ==> HolidayNames()[q] in r)
      && OneHot(CellsOf(r, HolidayNames()))
      && (forall q :: 0 <= q < 4 ==>
            (CellsOf(r, HolidayNames())[q] == 1.0 <==> CodeAt(m.holiday, t) == Some(NatStr(HolidayClasses[q]))))
      && (m.holiday.None? ==> forall q :: 0 <= q < 4 ==> CellsOf(r, HolidayNames())[q] == 0.0)
  {
    FrameRowFlags(m, lags, trig, j);
    HolidayOneHot(FeatureFrame(m, lags, trig).rows[j], m, Warmup(LagDepth(lags)) + j);
  }

  // ----- The Holiday column as line 95 reads it

  /** The aggregated Holiday column is stored as float64: its codes are
      integers and some month of the span has none. `_mode_safe` returns
      None for such a month, and pandas cannot keep integers with a missing
      value in an int64 column. */
  predicate FloatCodes(codes: seq<Option<string>>)
  {
    && (exists t :: 0 <= t < |codes| && codes[t].None?)
    && (forall t :: 0 <= t < |codes| && codes[t].Some? ==> IsNumericCode(codes[t].value))
  }

  /** `holi_m.astype(str)`: in a float64 column the code n prints as "n.0".
      Otherwise a code prints as itself. A month without a code prints
      "nan" or "None"; it stays None here, as neither text is a class name. */
  function PrintedCodes(codes: seq<Option<string>>): (r: seq<Option<string>>)
    ensures |r| == |codes|
    ensures forall t :: 0 <= t < |codes| ==> (r[t].None? <==> codes[t].None?)
  {
    seq(|codes|, t requires 0 <= t < |codes| =>
      if FloatCodes(codes) && codes[t].Some? then Some(codes[t].value + ".0") else codes[t])
  }

  /** The monthly data with the Holiday codes that line 95 compares as
      written. The feature table of `PrintedHoliday(m)` is the one the code
      builds; `FeatureFrame(m, ...)` marks the month's code itself. */
  function PrintedHoliday(m: Monthly): Monthly
  {
    if m.holiday.Some? then m.(holiday := Some(PrintedCodes(m.holiday.value))) else m
  }

  /** Reading the codes as text changes nothing unless the column is
      float64. When it is, no printed code is the text of a holiday class. */
  lemma PrintedHolidayCases(m: Monthly)
    ensures m.holiday.None? || !FloatCodes(m.holiday.value) ==> PrintedHoliday(m) == m
    ensures m.holiday.Some? && FloatCodes(m.holiday.value) ==>
      forall t, q :: 0 <= q < 4 ==> CodeAt(PrintedHoliday(m).holiday, t) != Some(NatStr(HolidayClasses[q]))
  {
    if m.holiday.Some? {
      var codes := m.holiday.value;
      if !FloatCodes(codes) {
        assert PrintedCodes(codes) == codes;
      } else {
        forall t, q | 0 <= q < 4
          ensures CodeAt(PrintedHoliday(m).holiday, t) != Some(NatStr(HolidayClasses[q]))
        {
          assert |NatStr(HolidayClasses[q])| == 1;
          if 0 <= t < |codes| && codes[t].Some? {
            assert |PrintedCodes(codes)[t].value| == |codes[t].value| + 2;
          }
        }
      }
    }
  }

  /** As written, once a month of the span has no Holiday code while the
      others hold integer codes, every holiday flag of every kept row is 0. */
  lemma GapClearsHolidayFlags(m: Monthly, lags: int, trig: Trig, j: int)
    requires m.holiday.Some? && FloatCodes(m.holiday.value)
    requires 0 <= j < |FeatureFrame(PrintedHoliday(m), lags, trig).rows|
    ensures var r := FeatureFrame(PrintedHoliday(m), lags, trig).rows[j];
      && (forall q :: 0 <= q < 4 ==> HolidayNames()[q] in r)
      && forall q :: 0 <= q < 4 ==> CellsOf(r, HolidayNames())[q] == 0.0
  {
    HolidayFlagsOneHot(PrintedHoliday(m), lags, trig, j);
    PrintedHolidayCases(m);
  }

  /** Integer codes 2, none, 1 over three months, one lag: the kept row is
      March, whose code is 1. The intended table sets `holi1` there; the code
      as written sets no holiday flag. */
  lemma HolidayGapExample(m: Monthly, trig: Trig)
    requires |m.y.values| == 3 && m.holiday == Some([Some("2"), None, Some("1")])
    ensures |FeatureFrame(m, 1, trig).rows| == 1 == |FeatureFrame(PrintedHoliday(m), 1, trig).rows|
    ensures forall q :: 0 <= q < 4 ==> HolidayNames()[q] in FeatureFrame(m, 1, trig).rows[0]
    ensures forall q :: 0 <= q < 4 ==> HolidayNames()[q] in FeatureFrame(PrintedHoliday(m), 1, trig).rows[0]
    ensures CellsOf(FeatureFrame(m, 1, trig).rows[0], HolidayNames())[0] == 1.0
    ensures CellsOf(FeatureFrame(PrintedHoliday(m), 1, trig).rows[0], HolidayNames())[0] == 0.0
  {
    FeatureFrameShape(m, 1, trig);
    FeatureFrameShape(PrintedHoliday(m), 1, trig);
    assert LagDepth(1) == 1 && Warmup(1) == 2;
    HolidayFlagsOneHot(m, 1, trig, 0);
    assert NatStr(HolidayClasses[0]) == "1";
    assert CodeAt(m.holiday, 2) == Some("1");
    assert IsNumericCode("2") && IsNumericCode("1") by {
      assert NatStr(2) == "2" && NatStr(1) == "1";
    }
    assert m.holiday.value[1].None?;
    GapClearsHolidayFlags(m, 1, trig, 0);
  }
}
