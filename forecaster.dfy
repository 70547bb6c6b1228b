/** `predict_with_lstm_for_product` (utils/model_infer.py): the product's
    monthly feature table, the latest row as the first input, and an
    autoregressive loop that predicts one month, appends the rounded value
    to the history and builds the next input row from that history. */
module Forecaster {
  import opened Base
  import opened Calendar
  import Sales
  import opened Monthly
  import opened Features
  import opened Align
  import opened Artifacts

  /** What `_load_artifacts` leaves in the globals, read out: the network,
      the scaler value, the feature order, the lag depth, and the target
      transform (`'_Y_LOG' in globals() and _Y_LOG`, `_Y_MU`, `_Y_SD`). */
  datatype Model = Model(network: Network, scaler: PyValue, feats: Option<seq<string>>, orderUsable: bool,
                         lags: int, yLog: bool, yMu: real, ySd: real)

  /** The floating-point functions the loop calls: the month encodings and
      numpy's `expm1`. */
  datatype Numerics = Numerics(trig: Trig, expm1: real -> real)

  /** The scenario arguments `promo_code` and `holi_code`. */
  datatype Scenario = Scenario(promo: Option<string>, holiday: Option<int>)

  // ----- One prediction

  /** `yhat` after the model call and, for a log-scaled target, the inverse
      `expm1(yhat * sd + mu)`. */
  function Predicted(model: Model, num: Numerics, x: seq<real>): real
  {
    var yhat := model.network(x);
    if model.yLog then Unlogged(model, num, yhat) else yhat
  }

  /** `np.expm1(yhat * _Y_SD + _Y_MU)`. */
  function Unlogged(model: Model, num: Numerics, yhat: real): real
  {
    num.expm1(yhat * model.ySd + model.yMu)
  }

  /** `int(round(max(0, yhat)))`: the nearest integer to the clamped
      prediction, never negative, and 0 for any prediction at or below 0. */
  function StepValue(model: Model, num: Numerics, x: seq<real>): (v: int)
    ensures v >= 0
    ensures Predicted(model, num, x) <= 0.0 ==> v == 0
    ensures Predicted(model, num, x) >= 0.0 ==>
      Predicted(model, num, x) - 0.5 <= v as real <= Predicted(model, num, x) + 0.5
  {
    RoundHalfEven(ClampNonNegative(Predicted(model, num, x)))
  }

  // ----- The next input row

  /** `y_hist.iloc[-i] if len(y_hist) >= i else y_hist.iloc[-1]`. */
  function LagValue(hist: seq<real>, i: nat): real
    requires |hist| > 0 && i >= 1
  {
    if |hist| >= i then hist[|hist| - i] else hist[|hist| - 1]
  }

  /** `rolling(3).mean().iloc[-1] if len(y_hist) >= 3 else y_hist.iloc[-1]`. */
  function MaValue(hist: seq<real>): real
    requires |hist| > 0
  {
    if |hist| >= 3 then (hist[|hist| - 3] + hist[|hist| - 2] + hist[|hist| - 1]) / 3.0 else hist[|hist| - 1]
  }

  /** `row` after the lag loop has written `lag1..lagn`. */
  function WithLags(row: map<string, real>, hist: seq<real>, n: nat): map<string, real>
    requires |hist| > 0
  {
    if n == 0 then row else WithLags(row, hist, n - 1)[LagName(n) := LagValue(hist, n)]
  }

  /** `row` after the promotion loop has written its first q flags. */
  function WithPromoFlags(row: map<string, real>, promo: Option<string>, q: nat): map<string, real>
    requires q <= 4
  {
    if q == 0 then row
    else WithPromoFlags(row, promo, q - 1)[PromoName(PromoClasses[q - 1]) := Flag(promo == Some(PromoClasses[q - 1]))]
  }

  /** `row` after the holiday loop has written its first h flags. */
  function WithHolidayFlags(row: map<string, real>, holiday: Option<int>, h: nat): map<string, real>
    requires h <= 4
  {
    if h == 0 then row
    else WithHolidayFlags(row, holiday, h - 1)[HolidayName(HolidayClasses[h - 1]) := Flag(holiday == Some(HolidayClasses[h - 1] as int))]
  }

  /** The dict `row` before its flags: `y`, the lags, `ma3` and the
      encodings of the month just predicted, whose value is the last of
      `hist`. */
  function ValueCells(hist: seq<real>, month: int, L: nat, trig: Trig): map<string, real>
    requires |hist| > 0
  {
    var lags := WithLags(map[YCol := hist[|hist| - 1]], hist, L);
    lags[MaCol := MaValue(hist)][SinCol := trig.sin(MonthOfYear(month))][CosCol := trig.cos(MonthOfYear(month))]
  }

  /** The scenario's flags written after the other cells. */
  function WithFlags(row: map<string, real>, sc: Scenario): map<string, real>
  {
    WithHolidayFlags(WithPromoFlags(row, sc.promo, 4), sc.holiday, 4)
  }

  /** The dict `row` the loop builds for the month just predicted. */
  function NextRow(hist: seq<real>, month: int, L: nat, trig: Trig, sc: Scenario): map<string, real>
    requires |hist| > 0
  {
    WithFlags(ValueCells(hist, month, L, trig), sc)
  }

  predicate StartsWithChar(c: string, ch: char)
  {
    |c| > 0 && c[0] == ch
  }

  /** Writing the lags adds exactly the lag columns, each holding its lag,
      and leaves every cell whose name does not start with `l` alone. */
  lemma WithLagsFacts(row: map<string, real>, hist: seq<real>, n: nat)
    requires |hist| > 0
    ensures WithLags(row, hist, n).Keys == row.Keys + ColumnSet(LagNames(n))
    ensures forall i :: 1 <= i <= n ==> LagName(i) in WithLags(row, hist, n) && WithLags(row, hist, n)[LagName(i)] == LagValue(hist, i)
    ensures forall c :: c in row && !StartsWithChar(c, 'l') ==> WithLags(row, hist, n)[c] == row[c]
  {
    WithLagsKeys(row, hist, n);
    WithLagsValues(row, hist, n);
    WithLagsKeeps(row, hist, n);
  }

  lemma {:induction false} WithLagsKeys(row: map<string, real>, hist: seq<real>, n: nat)
    requires |hist| > 0
    ensures WithLags(row, hist, n).Keys == row.Keys + ColumnSet(LagNames(n))
  {
    if n > 0 {
      WithLagsKeys(row, hist, n - 1);
      assert LagNames(n) == LagNames(n - 1) + [LagName(n)];
      assert ColumnSet(LagNames(n)) == ColumnSet(LagNames(n - 1)) + {LagName(n)};
    }
  }

  lemma {:induction false} WithLagsValues(row: map<string, real>, hist: seq<real>, n: nat)
    requires |hist| > 0
    ensures forall i :: 1 <= i <= n ==> LagName(i) in WithLags(row, hist, n) && WithLags(row, hist, n)[LagName(i)] == LagValue(hist, i)
  {
    if n > 0 {
      WithLagsValues(row, hist, n - 1);
      forall i | 1 <= i < n
        ensures LagName(i) != LagName(n)
      {
        if LagName(i) == LagName(n) {
          LagNameInjective(i, n);
        }
      }
    }
  }

  lemma {:induction false} WithLagsKeeps(row: map<string, real>, hist: seq<real>, n: nat)
    requires |hist| > 0
    ensures forall c :: c in row && !StartsWithChar(c, 'l') ==>
      c in WithLags(row, hist, n) && WithLags(row, hist, n)[c] == row[c]
  {
    if n > 0 {
      WithLagsKeeps(row, hist, n - 1);
      assert LagName(n)[0] == 'l';
    }
  }

  lemma {:induction false} WithPromoFlagsFacts(row: map<string, real>, promo: Option<string>, q: nat)
    requires q <= 4
    ensures WithPromoFlags(row, promo, q).Keys == row.Keys + ColumnSet(PromoNames()[..q])
    ensures forall j :: 0 <= j < q ==>
      WithPromoFlags(row, promo, q)[PromoNames()[j]] == Flag(promo == Some(PromoClasses[j]))
    ensures forall c :: c in row && !StartsWithChar(c, 'p') ==> WithPromoFlags(row, promo, q)[c] == row[c]
  {
    if q > 0 {
      WithPromoFlagsFacts(row, promo, q - 1);
      ConcreteFlagNames();
      assert PromoNames()[..q] == PromoNames()[..q - 1] + [PromoNames()[q - 1]];
    }
  }

  lemma {:induction false} WithHolidayFlagsFacts(row: map<string, real>, holiday: Option<int>, h: nat)
    requires h <= 4
    ensures WithHolidayFlags(row, holiday, h).Keys == row.Keys + ColumnSet(HolidayNames()[..h])
    ensures forall j :: 0 <= j < h ==>
      WithHolidayFlags(row, holiday, h)[HolidayNames()[j]] == Flag(holiday == Some(HolidayClasses[j] as int))
    ensures forall c :: c in row && !StartsWithChar(c, 'h') ==> WithHolidayFlags(row, holiday, h)[c] == row[c]
  {
    if h > 0 {
      WithHolidayFlagsFacts(row, holiday, h - 1);
      ConcreteFlagNames();
      assert HolidayNames()[..h] == HolidayNames()[..h - 1] + [HolidayNames()[h - 1]];
    }
  }

  /** The cells before the flags: none of their names starts with `p` or
      `h`. */
  lemma ValueCellsFacts(hist: seq<real>, month: int, L: nat, trig: Trig)
    requires |hist| > 0
    ensures var r := ValueCells(hist, month, L, trig);
      && (forall c :: c in r ==> !StartsWithChar(c, 'p') && !StartsWithChar(c, 'h'))
      && YCol in r && r[YCol] == hist[|hist| - 1]
      && (forall i :: 1 <= i <= L ==> LagName(i) in r && r[LagName(i)] == LagValue(hist, i))
      && MaCol in r && r[MaCol] == MaValue(hist)
      && r[SinCol] == trig.sin(MonthOfYear(month))
      && r[CosCol] == trig.cos(MonthOfYear(month))
  {
    ValueCellsNames(hist, month, L, trig);
    ValueCellsValues(hist, month, L, trig);
  }

  lemma ValueCellsNames(hist: seq<real>, month: int, L: nat, trig: Trig)
    requires |hist| > 0
    ensures forall c :: c in ValueCells(hist, month, L, trig) ==> !StartsWithChar(c, 'p') && !StartsWithChar(c, 'h')
  {
    ValueCellsKeys(hist, month, L, trig);
    forall c | c in ColumnSet(LagNames(L))
      ensures StartsWithChar(c, 'l')
    {
      var i :| 0 <= i < L && LagNames(L)[i] == c;
      assert c == LagName(i + 1) && c[0] == 'l';
    }
  }

  lemma ValueCellsValues(hist: seq<real>, month: int, L: nat, trig: Trig)
    requires |hist| > 0
    ensures var r := ValueCells(hist, month, L, trig);
      && YCol in r && r[YCol] == hist[|hist| - 1]
      && (forall i :: 1 <= i <= L ==> LagName(i) in r && r[LagName(i)] == LagValue(hist, i))
      && MaCol in r && r[MaCol] == MaValue(hist)
      && r[SinCol] == trig.sin(MonthOfYear(month))
      && r[CosCol] == trig.cos(MonthOfYear(month))
  {
    var base := map[YCol := hist[|hist| - 1]];
    WithLagsValues(base, hist, L);
    WithLagsKeeps(base, hist, L);
    forall i | 1 <= i <= L
      ensures LagName(i) != MaCol && LagName(i) != SinCol && LagName(i) != CosCol
    {
      assert LagName(i)[0] == 'l';
    }
  }

  /** Writing the flags adds the eight flag columns with the scenario's
      values and keeps every cell whose name starts with neither `p` nor
      `h`. */
  lemma WithFlagsFacts(row: map<string, real>, sc: Scenario)
    ensures forall c :: c in row && !StartsWithChar(c, 'p') && !StartsWithChar(c, 'h') ==>
      c in WithFlags(row, sc) && WithFlags(row, sc)[c] == row[c]
    ensures forall q :: 0 <= q < 4 ==> PromoNames()[q] in WithFlags(row, sc) && WithFlags(row, sc)[PromoNames()[q]] == PromoVector(sc.promo)[q]
    ensures forall q :: 0 <= q < 4 ==> HolidayNames()[q] in WithFlags(row, sc) && WithFlags(row, sc)[HolidayNames()[q]] == HolidayVector(sc.holiday)[q]
  {
    var promo := WithPromoFlags(row, sc.promo, 4);
    WithPromoFlagsFacts(row, sc.promo, 4);
    WithHolidayFlagsFacts(promo, sc.holiday, 4);
    ConcreteFlagNames();
    assert PromoNames()[..4] == PromoNames() && HolidayNames()[..4] == HolidayNames();
  }

  /** The next row has exactly `y` and the feature columns. */
  lemma NextRowKeys(hist: seq<real>, month: int, L: nat, trig: Trig, sc: Scenario)
    requires |hist| > 0
    ensures NextRow(hist, month, L, trig, sc).Keys == {YCol} + ColumnSet(FeatureColumns(L))
  {
    ValueCellsKeys(hist, month, L, trig);
    WithFlagsKeys(ValueCells(hist, month, L, trig), sc);
    FeatureColumnSet(L);
  }

  /** The feature columns as a set, part by part. */
  lemma FeatureColumnSet(L: nat)
    ensures ColumnSet(FeatureColumns(L))
         == {MaCol, SinCol, CosCol} + ColumnSet(LagNames(L)) + ColumnSet(PromoNames()) + ColumnSet(HolidayNames())
  {
    var a := LagNames(L) + [MaCol];
    var b := a + PromoNames();
    ColumnSetConcat([SinCol, CosCol], AddedNames(L));
    ColumnSetConcat(b, HolidayNames());
    ColumnSetConcat(a, PromoNames());
    ColumnSetConcat(LagNames(L), [MaCol]);
    assert ColumnSet([SinCol, CosCol]) == {SinCol, CosCol};
    assert ColumnSet([MaCol]) == {MaCol};
  }

  lemma ValueCellsKeys(hist: seq<real>, month: int, L: nat, trig: Trig)
    requires |hist| > 0
    ensures ValueCells(hist, month, L, trig).Keys == {YCol, MaCol, SinCol, CosCol} + ColumnSet(LagNames(L))
  {
    WithLagsFacts(map[YCol := hist[|hist| - 1]], hist, L);
  }

  lemma WithFlagsKeys(row: map<string, real>, sc: Scenario)
    ensures WithFlags(row, sc).Keys == row.Keys + ColumnSet(PromoNames()) + ColumnSet(HolidayNames())
  {
    WithPromoFlagsFacts(row, sc.promo, 4);
    WithHolidayFlagsFacts(WithPromoFlags(row, sc.promo, 4), sc.holiday, 4);
    assert PromoNames()[..4] == PromoNames() && HolidayNames()[..4] == HolidayNames();
  }

  /** In the next row, `y` is the value just predicted; `lag_i` is the i-th
      most recent value of the history (so `lag1` is the value just
      predicted), or the latest one when the history is shorter than i;
      `ma3` is the mean of the last three values, or the latest one. */
  lemma NextRowLags(hist: seq<real>, month: int, L: nat, trig: Trig, sc: Scenario)
    requires |hist| > 0
    ensures var r, n := NextRow(hist, month, L, trig, sc), |hist|;
      && YCol in r && r[YCol] == hist[n - 1]
      && (forall i :: 1 <= i <= L ==> LagName(i) in r && r[LagName(i)] == (if n >= i then hist[n - i] else hist[n - 1]))
      && MaCol in r && r[MaCol] == (if n >= 3 then (hist[n - 3] + hist[n - 2] + hist[n - 1]) / 3.0 else hist[n - 1])
  {
    ValueCellsFacts(hist, month, L, trig);
    WithFlagsFacts(ValueCells(hist, month, L, trig), sc);
  }

  /** The month encodings of the next row are those of the month just
      predicted. */
  lemma NextRowMonth(hist: seq<real>, month: int, L: nat, trig: Trig, sc: Scenario)
    requires |hist| > 0
    ensures var r := NextRow(hist, month, L, trig, sc);
      && SinCol in r && r[SinCol] == trig.sin(MonthOfYear(month))
      && CosCol in r && r[CosCol] == trig.cos(MonthOfYear(month))
  {
    ValueCellsFacts(hist, month, L, trig);
    WithFlagsFacts(ValueCells(hist, month, L, trig), sc);
  }

  lemma ColumnSetConcat(a: seq<string>, b: seq<string>)
    ensures ColumnSet(a + b) == ColumnSet(a) + ColumnSet(b)
  {
  }

  /** The promotion flags a scenario sets: `1 if promo_code == k else 0`
      for k in A..D. */
  function PromoVector(promo: Option<string>): (v: seq<real>)
    ensures |v| == 4
  {
    seq(4, q requires 0 <= q < 4 => Flag(promo == Some(PromoClasses[q])))
  }

  /** The holiday flags a scenario sets: `1 if holi_code == k else 0` for
      k in 1..4. */
  function HolidayVector(holiday: Option<int>): (v: seq<real>)
    ensures |v| == 4
  {
    seq(4, q requires 0 <= q < 4 => Flag(holiday == Some(HolidayClasses[q] as int)))
  }

  /** The flags of the next row come from the scenario alone, so they are
      the same at every step whatever the history and the month. */
  lemma NextRowFlags(hist: seq<real>, month: int, L: nat, trig: Trig, sc: Scenario)
    requires |hist| > 0
    ensures var r := NextRow(hist, month, L, trig, sc);
      && (forall q :: 0 <= q < 4 ==> PromoNames()[q] in r && HolidayNames()[q] in r)
      && CellsOf(r, PromoNames()) == PromoVector(sc.promo)
      && CellsOf(r, HolidayNames()) == HolidayVector(sc.holiday)
  {
    WithFlagsFacts(ValueCells(hist, month, L, trig), sc);
  }

  /** A scenario's flags are one-hot: the flag of the named class is 1, every
      other flag is 0, and all are 0 when the scenario names no class (or a
      code outside the classes). */
  lemma ScenarioFlagsOneHot(sc: Scenario)
    ensures OneHot(PromoVector(sc.promo)) && OneHot(HolidayVector(sc.holiday))
    ensures forall q :: 0 <= q < 4 ==> (PromoVector(sc.promo)[q] == 1.0 <==> sc.promo == Some(PromoClasses[q]))
    ensures forall q :: 0 <= q < 4 ==> (HolidayVector(sc.holiday)[q] == 1.0 <==> sc.holiday == Some(HolidayClasses[q] as int))
    ensures sc.promo.None? ==> forall q :: 0 <= q < 4 ==> PromoVector(sc.promo)[q] == 0.0
    ensures sc.holiday.None? ==> forall q :: 0 <= q < 4 ==> HolidayVector(sc.holiday)[q] == 0.0
  {
    var p, h := PromoVector(sc.promo), HolidayVector(sc.holiday);
    forall q1, q2 | 0 <= q1 < 4 && 0 <= q2 < 4 && p[q1] == 1.0 && p[q2] == 1.0
      ensures q1 == q2
    {
      assert PromoClasses[q1] == sc.promo.value == PromoClasses[q2];
    }
    forall q1, q2 | 0 <= q1 < 4 && 0 <= q2 < 4 && h[q1] == 1.0 && h[q2] == 1.0
      ensures q1 == q2
    {
      assert HolidayClasses[q1] == sc.holiday.value == HolidayClasses[q2];
    }
  }

  // ----- The next input vector

  /** The column order of `pd.DataFrame([row]).drop(columns=["y"])` as the
      loop builds `row`: the lags, `ma3`, the encodings, then the flags. */
  function DictOrder(L: nat): (r: seq<string>)
    ensures |r| == L + 11
  {
    LagNames(L) + [MaCol, SinCol, CosCol] + PromoNames() + HolidayNames()
  }

  lemma DictOrderColumns(L: nat)
    ensures ColumnSet(DictOrder(L)) == ColumnSet(FeatureColumns(L))
  {
    forall x
      ensures x in DictOrder(L) <==> x in FeatureColumns(L)
    {
    }
  }

  /** `pd.DataFrame([row]).drop(columns=["y"])` with the columns of `row`
      in `order` after `y`. */
  function NextFrame(row: map<string, real>, month: int, order: seq<string>): Frame
  {
    DropColumn(Frame([month], [YCol] + order, [row]), YCol)
  }

  /** A frame with a feature order, or without one, stays regular and keeps
      its number of rows when aligned. */
  lemma AlignedRegular(f: Frame, feats: Option<seq<string>>)
    requires Regular(f)
    ensures Regular(Aligned(f, feats)) && |Aligned(f, feats).rows| == |f.rows|
  {
    if feats.Some? {
      AlignedFacts(f, feats.value);
    }
  }

  lemma NextFrameRegular(hist: seq<real>, month: int, L: nat, trig: Trig, sc: Scenario, feats: Option<seq<string>>, order: seq<string>)
    requires |hist| > 0
    requires ColumnSet(order) == ColumnSet(FeatureColumns(L))
    ensures var a := Aligned(NextFrame(NextRow(hist, month, L, trig, sc), month, order), feats);
      Regular(a) && |a.rows| == 1
  {
    var f := Frame([month], [YCol] + order, [NextRow(hist, month, L, trig, sc)]);
    NextRowKeys(hist, month, L, trig, sc);
    ColumnSetConcat([YCol], order);
    assert ColumnSet([YCol]) == {YCol};
    assert Regular(f);
    DropColumnFacts(f, YCol);
    AlignedRegular(DropColumn(f, YCol), feats);
  }

  /** `_align_feature_order(x_next_df, _FEATS).values[0]` for the row of the
      month just predicted, its columns in `order`. */
  function NextVector(hist: seq<real>, month: int, L: nat, trig: Trig, sc: Scenario,
                      feats: Option<seq<string>>, order: seq<string>): (v: seq<real>)
    requires |hist| > 0
    requires ColumnSet(order) == ColumnSet(FeatureColumns(L))
    ensures |v| == |Aligned(NextFrame(NextRow(hist, month, L, trig, sc), month, order), feats).columns|
  {
    NextFrameRegular(hist, month, L, trig, sc, feats, order);
    Values(Aligned(NextFrame(NextRow(hist, month, L, trig, sc), month, order), feats))[0]
  }

  /** The history frame without `y`: its columns are the feature columns in
      their natural order. */
  lemma HistoryLayout(m: Monthly, lags: int, trig: Trig)
    ensures DropColumn(FeatureFrame(m, lags, trig), YCol).columns == FeatureColumns(LagDepth(lags))
  {
    FeatureFrameShape(m, lags, trig);
    ColumnNamesDistinct(LagDepth(lags));
    WithoutAbsent(FeatureColumns(LagDepth(lags)), YCol);
  }

  lemma {:induction false} WithoutAbsent(cs: seq<string>, c: string)
    requires forall i :: 0 <= i < |cs| ==> cs[i] != c
    ensures Without([c] + cs, c) == cs
  {
    assert ([c] + cs)[1..] == cs;
    WithoutKeeps(cs, c);
  }

  lemma {:induction false} WithoutKeeps(cs: seq<string>, c: string)
    requires forall i :: 0 <= i < |cs| ==> cs[i] != c
    ensures Without(cs, c) == cs
  {
    if cs != [] {
      WithoutKeeps(cs[1..], c);
    }
  }

  /** Without a feature order the input vector is the row read in the
      frame's own column order. */
  lemma VectorInOrder(hist: seq<real>, month: int, L: nat, trig: Trig, sc: Scenario, order: seq<string>)
    requires |hist| > 0
    requires ColumnSet(order) == ColumnSet(FeatureColumns(L))
    ensures NextFrame(NextRow(hist, month, L, trig, sc), month, order).columns == order
    ensures var v, r := NextVector(hist, month, L, trig, sc, None, order), NextRow(hist, month, L, trig, sc);
      |v| == |order| && forall i :: 0 <= i < |order| ==> order[i] in r && v[i] == r[order[i]]
  {
    var r := NextRow(hist, month, L, trig, sc);
    NextRowKeys(hist, month, L, trig, sc);
    YNotFeature(L);
    forall i | 0 <= i < |order|
      ensures order[i] != YCol && order[i] in r
    {
      assert order[i] in ColumnSet(order);
    }
    WithoutAbsent(order, YCol);
    NextFrameRegular(hist, month, L, trig, sc, None, order);
  }

  lemma YNotFeature(L: nat)
    ensures YCol !in ColumnSet(FeatureColumns(L))
  {
    ColumnNamesDistinct(L);
    var cs := [YCol] + FeatureColumns(L);
    forall i | 0 <= i < |FeatureColumns(L)|
      ensures FeatureColumns(L)[i] != YCol
    {
      assert cs[i + 1] == FeatureColumns(L)[i] && cs[0] == YCol;
    }
  }

  /** Finding, as written: without a feature order the next row keeps the
      dict's column order, so the network's first input slot, which holds
      `month_sin` in every history row, holds `lag1` (the value just
      predicted) in every later row, and the two vectors differ whenever
      those two numbers do. */
  lemma DictOrderMismatch(hist: seq<real>, month: int, L: nat, trig: Trig, sc: Scenario)
    requires |hist| > 0 && L >= 1
    ensures ColumnSet(DictOrder(L)) == ColumnSet(FeatureColumns(L))
    ensures FeatureColumns(L)[0] == SinCol && DictOrder(L)[0] == LagName(1)
    ensures |NextVector(hist, month, L, trig, sc, None, DictOrder(L))| == L + 11
    ensures |NextVector(hist, month, L, trig, sc, None, FeatureColumns(L))| == L + 11
    ensures NextVector(hist, month, L, trig, sc, None, DictOrder(L))[0] == hist[|hist| - 1]
    ensures NextVector(hist, month, L, trig, sc, None, FeatureColumns(L))[0] == trig.sin(MonthOfYear(month))
    ensures hist[|hist| - 1] != trig.sin(MonthOfYear(month)) ==>
      NextVector(hist, month, L, trig, sc, None, DictOrder(L)) != NextVector(hist, month, L, trig, sc, None, FeatureColumns(L))
  {
    DictOrderColumns(L);
    VectorInOrder(hist, month, L, trig, sc, DictOrder(L));
    VectorInOrder(hist, month, L, trig, sc, FeatureColumns(L));
    NextRowLags(hist, month, L, trig, sc);
    NextRowMonth(hist, month, L, trig, sc);
  }

  /** With a feature order the dict's column order does not matter: both
      orders give the same input vector. */
  lemma FeatureOrderHidesDictOrder(hist: seq<real>, month: int, L: nat, trig: Trig, sc: Scenario, fc: seq<string>)
    requires |hist| > 0
    ensures ColumnSet(DictOrder(L)) == ColumnSet(FeatureColumns(L))
    ensures NextVector(hist, month, L, trig, sc, Some(fc), DictOrder(L))
         == NextVector(hist, month, L, trig, sc, Some(fc), FeatureColumns(L))
  {
    DictOrderColumns(L);
  }

  /** Finding, corrected: the next row laid out in the history's column
      order, so every input slot holds the same feature at every step. Its
      vector reads the row's cells in exactly the order of the history
      frame's columns. */
  lemma RolloutLayoutMatchesHistory(m: Monthly, lags: int, trig: Trig, hist: seq<real>, month: int, sc: Scenario)
    requires |hist| > 0
    ensures var L := LagDepth(lags);
      var cols := DropColumn(FeatureFrame(m, lags, trig), YCol).columns;
      var v := NextVector(hist, month, L, trig, sc, None, FeatureColumns(L));
      && NextFrame(NextRow(hist, month, L, trig, sc), month, FeatureColumns(L)).columns == cols
      && |v| == |cols|
      && (forall i :: 0 <= i < |cols| ==> cols[i] in NextRow(hist, month, L, trig, sc) && v[i] == NextRow(hist, month, L, trig, sc)[cols[i]])
  {
    var L := LagDepth(lags);
    HistoryLayout(m, lags, trig);
    VectorInOrder(hist, month, L, trig, sc, FeatureColumns(L));
  }

  // ----- The autoregressive loop

  /** The loop's variables between two iterations: `y_hist`, the month the
      next iteration predicts (`current_month`) and the network's next
      input (`X_seq`). */
  datatype State = State(hist: seq<real>, month: int, x: seq<real>)

  /** `_SCALER.transform` on the next row, laid out in the history's
      column order (see the Findings). */
  function NextInput(model: Model, trig: Trig, sc: Scenario, hist: seq<real>, month: int): seq<real>
    requires model.scaler.PyScaler? && |hist| > 0
  {
    var L := LagDepth(model.lags);
    model.scaler.scale(NextVector(hist, month, L, trig, sc, model.feats, FeatureColumns(L)))
  }

  /** What one iteration does, in two parts: the value predicted from the
      current input, and the next input built from the extended history
      and the month just predicted. */
  datatype Loop = Loop(predict: seq<real> -> int, next: (seq<real>, int) -> seq<real>)

  /** The forecaster's iteration: StepValue, then NextInput. */
  function ForecastLoop(model: Model, num: Numerics, sc: Scenario): (lp: Loop)
    ensures forall x :: lp.predict(x) == StepValue(model, num, x)
    ensures model.scaler.PyScaler? ==>
      forall h, mo :: |h| > 0 ==> lp.next(h, mo) == NextInput(model, num.trig, sc, h, mo)
  {
    Loop(x => StepValue(model, num, x),
         (h, mo) => if model.scaler.PyScaler? && |h| > 0 then NextInput(model, num.trig, sc, h, mo) else [])
  }

  /** One iteration: predict, append the value to the history, build the
      input for the month after. */
  function Step(lp: Loop, s: State): State
  {
    var hist := s.hist + [lp.predict(s.x) as real];
    State(hist, s.month + 1, lp.next(hist, s.month))
  }

  /** The values the loop appends to `preds` in n iterations, one per
      iteration. */
  function Rollout(lp: Loop, s: State, n: nat): (r: seq<int>)
    ensures |r| == n
    decreases n
  {
    if n == 0 then [] else [lp.predict(s.x)] + Rollout(lp, Step(lp, s), n - 1)
  }

  /** The loop's variables after k iterations. */
  function Iterate(lp: Loop, s: State, k: nat): State
    decreases k
  {
    if k == 0 then s else Iterate(lp, Step(lp, s), k - 1)
  }

  function Reals(s: seq<int>): (r: seq<real>)
    ensures |r| == |s| && forall i :: 0 <= i < |s| ==> r[i] == s[i] as real
  {
    seq(|s|, i requires 0 <= i < |s| => s[i] as real)
  }

  /** After k of n iterations the history is the starting history followed
      by the first k predictions, and the month has advanced by exactly k. */
  lemma {:induction false} RolloutHistory(lp: Loop, s: State, n: nat, k: nat)
    requires k <= n
    ensures Iterate(lp, s, k).hist == s.hist + Reals(Rollout(lp, s, n)[..k])
    ensures Iterate(lp, s, k).month == s.month + k
    decreases k
  {
    var r := Rollout(lp, s, n);
    if k == 0 {
      assert Reals(r[..0]) == [];
    } else {
      var s' := Step(lp, s);
      RolloutHistory(lp, s', n - 1, k - 1);
      var r' := Rollout(lp, s', n - 1);
      assert r == [lp.predict(s.x)] + r';
      assert Reals(r[..k]) == [r[0] as real] + Reals(r'[..k - 1]);
    }
  }

  /** The k-th prediction is made from the input the loop holds after k
      iterations. */
  lemma {:induction false} RolloutValues(lp: Loop, s: State, n: nat, k: nat)
    requires k < n
    ensures Rollout(lp, s, n)[k] == lp.predict(Iterate(lp, s, k).x)
    decreases k
  {
    if k > 0 {
      RolloutValues(lp, Step(lp, s), n - 1, k - 1);
    }
  }

  /** Every input after the first is built from the history that ends with
      the latest prediction and from the month just predicted. */
  lemma {:induction false} RolloutInputs(lp: Loop, s: State, k: nat)
    requires k > 0
    ensures var t := Iterate(lp, s, k);
      |t.hist| > 0 && t.x == lp.next(t.hist, s.month + k - 1)
    decreases k
  {
    if k > 1 {
      RolloutInputs(lp, Step(lp, s), k - 1);
    }
  }

  /** Every forecast value is a non-negative integer. */
  lemma {:induction false} RolloutNonNegative(model: Model, num: Numerics, sc: Scenario, s: State, n: nat)
    ensures forall k :: 0 <= k < n ==> Rollout(ForecastLoop(model, num, sc), s, n)[k] >= 0
  {
    var lp := ForecastLoop(model, num, sc);
    forall k | 0 <= k < n
      ensures Rollout(lp, s, n)[k] >= 0
    {
      RolloutValues(lp, s, n, k);
    }
  }

  /** In every iteration after the first, the input is the scaled row of
      the month just predicted, built from the history that ends with the
      previous prediction. */
  lemma RolloutForecastInputs(model: Model, num: Numerics, sc: Scenario, s: State, k: nat)
    requires model.scaler.PyScaler? && k >= 1
    ensures var t := Iterate(ForecastLoop(model, num, sc), s, k);
      |t.hist| > 0 && t.x == NextInput(model, num.trig, sc, t.hist, s.month + k - 1)
  {
    RolloutInputs(ForecastLoop(model, num, sc), s, k);
  }

  /** That row's `lag1` is the value the previous iteration predicted. */
  lemma RolloutLag1(model: Model, num: Numerics, sc: Scenario, s: State, n: nat, k: nat)
    requires 1 <= k <= n && LagDepth(model.lags) >= 1
    ensures var lp := ForecastLoop(model, num, sc);
      var t := Iterate(lp, s, k);
      && |t.hist| > 0
      && LagName(1) in NextRow(t.hist, s.month + k - 1, LagDepth(model.lags), num.trig, sc)
      && NextRow(t.hist, s.month + k - 1, LagDepth(model.lags), num.trig, sc)[LagName(1)]
         == Rollout(lp, s, n)[k - 1] as real
  {
    var lp := ForecastLoop(model, num, sc);
    RolloutLatest(lp, s, n, k);
    NextRowLag1(Iterate(lp, s, k).hist, s.month + k - 1, LagDepth(model.lags), num.trig, sc);
  }

  /** After k >= 1 iterations the history ends with the k-th prediction. */
  lemma RolloutLatest(lp: Loop, s: State, n: nat, k: nat)
    requires 1 <= k <= n
    ensures var t := Iterate(lp, s, k);
      |t.hist| > 0 && t.hist[|t.hist| - 1] == Rollout(lp, s, n)[k - 1] as real
  {
    RolloutHistory(lp, s, n, k);
    var t := Iterate(lp, s, k);
    assert t.hist[|t.hist| - 1] == Reals(Rollout(lp, s, n)[..k])[k - 1];
  }

  lemma NextRowLag1(hist: seq<real>, month: int, L: nat, trig: Trig, sc: Scenario)
    requires |hist| > 0 && L >= 1
    ensures var r := NextRow(hist, month, L, trig, sc);
      LagName(1) in r && r[LagName(1)] == hist[|hist| - 1]
  {
    NextRowLags(hist, month, L, trig, sc);
  }

  // ----- The whole forecast

  /** `_to_monthly(sub)` for the product's rows. */
  function ProductMonthly(t: Sales.Table, product: string): Monthly
  {
    ToMonthly(Sales.Table(Sales.RowsOf(t.rows, product), t.hasPromotion, t.hasHoliday, t.hasPrice))
  }

  /** The feature table is regular, with `y` and the feature columns. */
  lemma FeatureFrameRegular(m: Monthly, lags: int, trig: Trig)
    ensures var f := FeatureFrame(m, lags, trig);
      && Regular(f) && YCol in f.columns
      && Regular(Aligned(DropColumn(f, YCol), None))
  {
    var f, L := FeatureFrame(m, lags, trig), LagDepth(lags);
    FeatureFrameShape(m, lags, trig);
    FeatureFrameRows(m, lags, trig);
    RowsRegular(f, m, L, Warmup(L), trig);
  }

  lemma RowsRegular(f: Frame, m: Monthly, L: nat, d: nat, trig: Trig)
    requires d == Warmup(L) && FeatureRows(f, m, L, d, trig)
    requires f.columns == [YCol] + FeatureColumns(L) && |f.index| == |f.rows|
    ensures Regular(f) && Regular(Aligned(DropColumn(f, YCol), None))
  {
    forall k | 0 <= k < |f.rows|
      ensures f.rows[k].Keys == ColumnSet(f.columns)
    {
      FeatureRowCells(f, m, L, d, trig, k);
    }
    DropColumnFacts(f, YCol);
  }

  /** The `y` column of a table of feature rows from month d on is the
      series from d on. */
  lemma TargetColumn(f: Frame, m: Monthly, L: nat, d: nat, trig: Trig)
    requires d == Warmup(L) && FeatureRows(f, m, L, d, trig)
    requires Regular(f) && YCol in f.columns && |f.rows| == |m.y.values| - d
    ensures Column(f, YCol) == m.y.values[d..]
  {
    forall k | 0 <= k < |f.rows|
      ensures Column(f, YCol)[k] == m.y.values[d + k]
    {
      TargetCell(f, m, L, d, trig, k);
    }
  }

  lemma TargetCell(f: Frame, m: Monthly, L: nat, d: nat, trig: Trig, k: nat)
    requires d == Warmup(L) && FeatureRows(f, m, L, d, trig)
    requires Regular(f) && YCol in f.columns && k < |f.rows|
    ensures d + k < |m.y.values| && Column(f, YCol)[k] == m.y.values[d + k]
  {
    FeatureRowCells(f, m, L, d, trig, k);
  }

  /** `feats[c]` for a column every row has. */
  function Column(f: Frame, c: string): (r: seq<real>)
    requires Regular(f) && c in f.columns
    ensures |r| == |f.rows|
  {
    seq(|f.rows|, j requires 0 <= j < |f.rows| => assert c in ColumnSet(f.columns); f.rows[j][c])
  }

  /** The history matrix `X_hist`: the feature table without `y`, aligned
      to the feature order, read out row by row. */
  function HistoryMatrix(model: Model, trig: Trig, m: Monthly): (X: seq<seq<real>>)
    ensures |X| == |FeatureFrame(m, model.lags, trig).rows|
  {
    var f := FeatureFrame(m, model.lags, trig);
    FeatureFrameRegular(m, model.lags, trig);
    AlignedRegular(DropColumn(f, YCol), model.feats);
    Values(Aligned(DropColumn(f, YCol), model.feats))
  }

  /** The loop's variables before the first iteration: `y_hist` is the
      feature table's `y`, the first month predicted follows its last
      month, and the first input is the scaled last row of `X_hist`
      (`_make_sequence`). */
  function Start(model: Model, trig: Trig, m: Monthly): State
    requires model.scaler.PyScaler?
    requires FeatureFrame(m, model.lags, trig).rows != []
  {
    FeatureFrameRegular(m, model.lags, trig);
    StartFrom(model.scaler, FeatureFrame(m, model.lags, trig), HistoryMatrix(model, trig, m))
  }

  /** The loop's variables read off a feature table `f` and its history
      matrix `X`. */
  function StartFrom(scaler: PyValue, f: Frame, X: seq<seq<real>>): State
    requires scaler.PyScaler? && Regular(f) && YCol in f.columns && f.rows != [] && X != []
  {
    State(Column(f, YCol), f.index[|f.index| - 1] + 1, scaler.scale(X[|X| - 1]))
  }

  /** `predict_with_lstm_for_product` once the artifacts are loaded. */
  function Forecast(model: Model, num: Numerics, sc: Scenario, t: Sales.Table, product: string, horizon: int): Result<seq<int>>
  {
    if Sales.RowsOf(t.rows, product) == [] then Err(NoDataForProduct)
    else
      var m := ProductMonthly(t, product);
      if FeatureFrame(m, model.lags, num.trig).rows == [] then Err(EmptyFeatures)
      else if !model.orderUsable then Err(UnusableFeatureOrder)
      else if !model.scaler.PyScaler? then Err(NotAScaler)
      else Ok(Rollout(ForecastLoop(model, num, sc), Start(model, num.trig, m), if horizon > 0 then horizon else 0))
  }

  /** The forecast raises for a product without rows, for a product with
      at most max(L, 2) months from its first to its last sale, for a
      `feature_cols` that is neither None nor a list, and for a scaler
      without `transform`, in that order; otherwise it returns one
      non-negative integer per month of the horizon (none for a horizon
      below 1). */
  lemma ForecastOutcome(model: Model, num: Numerics, sc: Scenario, t: Sales.Table, product: string, horizon: int)
    ensures var r, m := Forecast(model, num, sc, t, product, horizon), ProductMonthly(t, product);
      && (r == Err(NoDataForProduct) <==> Sales.RowsOf(t.rows, product) == [])
      && (r == Err(EmptyFeatures) <==>
            Sales.RowsOf(t.rows, product) != [] && |m.y.values| <= Warmup(LagDepth(model.lags)))
      && (r == Err(UnusableFeatureOrder) <==>
            Sales.RowsOf(t.rows, product) != [] && |m.y.values| > Warmup(LagDepth(model.lags)) && !model.orderUsable)
      && (r == Err(NotAScaler) <==>
            Sales.RowsOf(t.rows, product) != [] && |m.y.values| > Warmup(LagDepth(model.lags)) && model.orderUsable
            && !model.scaler.PyScaler?)
      && (r.Ok? ==> |r.value| == (if horizon > 0 then horizon else 0) && forall k :: 0 <= k < |r.value| ==> r.value[k] >= 0)
  {
    var m := ProductMonthly(t, product);
    FeatureFrameShape(m, model.lags, num.trig);
    if Sales.RowsOf(t.rows, product) != [] && FeatureFrame(m, model.lags, num.trig).rows != [] && model.orderUsable && model.scaler.PyScaler? {
      RolloutNonNegative(model, num, sc, Start(model, num.trig, m), if horizon > 0 then horizon else 0);
    }
  }

  /** The loop starts from the feature table's last month: the history is
      the monthly series from month max(L, 2) on, and the first month
      predicted is the one after the last month of the series. */
  lemma StartHistory(model: Model, trig: Trig, m: Monthly)
    requires model.scaler.PyScaler?
    requires FeatureFrame(m, model.lags, trig).rows != []
    ensures var s, d := Start(model, trig, m), Warmup(LagDepth(model.lags));
      && |m.y.values| > d
      && s.hist == m.y.values[d..]
      && s.month == m.y.start + |m.y.values|
  {
    var f, L := FeatureFrame(m, model.lags, trig), LagDepth(model.lags);
    FeatureFrameShape(m, model.lags, trig);
    FeatureFrameRows(m, model.lags, trig);
    FeatureFrameRegular(m, model.lags, trig);
    TargetColumn(f, m, L, Warmup(L), trig);
    assert Start(model, trig, m).hist == Column(f, YCol);
  }

  /** The first input is the scaled last feature row alone, in the feature
      order (0.0 for a listed column the table lacks) or, without one, in
      the table's own column order (`_make_sequence`). */
  lemma StartInput(model: Model, trig: Trig, m: Monthly)
    requires model.scaler.PyScaler?
    requires FeatureFrame(m, model.lags, trig).rows != []
    ensures var s, f, L := Start(model, trig, m), FeatureFrame(m, model.lags, trig), LagDepth(model.lags);
      var last := f.rows[|f.rows| - 1];
      && (forall q :: 0 <= q < |FeatureColumns(L)| ==> FeatureColumns(L)[q] in last)
      && (model.feats.None? ==> s.x == model.scaler.scale(CellsOf(last, FeatureColumns(L))))
      && (model.feats.Some? ==> s.x == model.scaler.scale(OrderedCells(last, model.feats.value, FeatureColumns(L))))
  {
    var X := HistoryMatrix(model, trig, m);
    assert Start(model, trig, m).x == model.scaler.scale(X[|X| - 1]);
    LastRowColumns(model, trig, m);
    if model.feats.None? {
      LastRowNoOrder(model, trig, m);
    } else {
      LastRowWithOrder(model, trig, m);
    }
  }

  /** A row read in the listed order, 0.0 for a listed name outside
      `cols`. */
  function OrderedCells(row: map<string, real>, order: seq<string>, cols: seq<string>): (v: seq<real>)
    requires forall q :: 0 <= q < |cols| ==> cols[q] in row
    ensures |v| == |order|
  {
    seq(|order|, i requires 0 <= i < |order| => if order[i] in cols then row[order[i]] else 0.0)
  }

  lemma LastRowColumns(model: Model, trig: Trig, m: Monthly)
    requires FeatureFrame(m, model.lags, trig).rows != []
    ensures var f, fc := FeatureFrame(m, model.lags, trig), FeatureColumns(LagDepth(model.lags));
      forall q :: 0 <= q < |fc| ==> fc[q] in f.rows[|f.rows| - 1]
  {
    var f := FeatureFrame(m, model.lags, trig);
    FeatureFrameRegular(m, model.lags, trig);
    FeatureFrameShape(m, model.lags, trig);
    assert forall c :: c in FeatureColumns(LagDepth(model.lags)) ==> c in ColumnSet(f.columns);
  }

  lemma LastRowNoOrder(model: Model, trig: Trig, m: Monthly)
    requires model.feats.None?
    requires FeatureFrame(m, model.lags, trig).rows != []
    ensures var X, f, L := HistoryMatrix(model, trig, m), FeatureFrame(m, model.lags, trig), LagDepth(model.lags);
      (forall q :: 0 <= q < |FeatureColumns(L)| ==> FeatureColumns(L)[q] in f.rows[|f.rows| - 1])
      && X[|X| - 1] == CellsOf(f.rows[|f.rows| - 1], FeatureColumns(L))
  {
    var f, L := FeatureFrame(m, model.lags, trig), LagDepth(model.lags);
    LastRowColumns(model, trig, m);
    HistoryNoOrder(model, trig, m);
    LastRowCells(f, FeatureColumns(L));
  }

  /** Without a feature order, `X_hist` reads the table without `y` in its
      own column order. */
  lemma HistoryNoOrder(model: Model, trig: Trig, m: Monthly)
    requires model.feats.None?
    ensures var f := FeatureFrame(m, model.lags, trig);
      && Regular(f) && DropColumn(f, YCol).columns == FeatureColumns(LagDepth(model.lags))
      && Regular(DropColumn(f, YCol))
      && HistoryMatrix(model, trig, m) == Values(DropColumn(f, YCol))
  {
    HistoryLayout(m, model.lags, trig);
    FeatureFrameRegular(m, model.lags, trig);
  }

  /** The last row of a table without `y`, read in the table's own column
      order. */
  lemma LastRowCells(f: Frame, fc: seq<string>)
    requires Regular(DropColumn(f, YCol)) && f.rows != [] && DropColumn(f, YCol).columns == fc
    requires forall q :: 0 <= q < |fc| ==> fc[q] in f.rows[|f.rows| - 1]
    ensures var X := Values(DropColumn(f, YCol));
      |X| == |f.rows| && X[|X| - 1] == CellsOf(f.rows[|f.rows| - 1], fc)
  {
    var X := Values(DropColumn(f, YCol));
    forall q | 0 <= q < |fc|
      ensures X[|X| - 1][q] == f.rows[|f.rows| - 1][fc[q]]
    {
      LastCell(f, fc, q);
    }
  }

  lemma LastCell(f: Frame, fc: seq<string>, q: nat)
    requires Regular(DropColumn(f, YCol)) && f.rows != [] && DropColumn(f, YCol).columns == fc
    requires q < |fc| && fc[q] in f.rows[|f.rows| - 1]
    ensures var X := Values(DropColumn(f, YCol));
      |X| == |f.rows| && q < |X[|X| - 1]| && X[|X| - 1][q] == f.rows[|f.rows| - 1][fc[q]]
  {
    KeptCell(f, fc[q]);
  }

  lemma LastRowWithOrder(model: Model, trig: Trig, m: Monthly)
    requires model.feats.Some?
    requires FeatureFrame(m, model.lags, trig).rows != []
    ensures var X, f, L, fc := HistoryMatrix(model, trig, m), FeatureFrame(m, model.lags, trig), LagDepth(model.lags), model.feats.value;
      (forall q :: 0 <= q < |FeatureColumns(L)| ==> FeatureColumns(L)[q] in f.rows[|f.rows| - 1])
      && X[|X| - 1] == OrderedCells(f.rows[|f.rows| - 1], fc, FeatureColumns(L))
  {
    var f, L := FeatureFrame(m, model.lags, trig), LagDepth(model.lags);
    LastRowColumns(model, trig, m);
    HistoryWithOrder(model, trig, m);
    LastRowOrdered(f, FeatureColumns(L), model.feats.value);
  }

  /** With a feature order, `X_hist` reads the table without `y` aligned
      to that order. */
  lemma HistoryWithOrder(model: Model, trig: Trig, m: Monthly)
    requires model.feats.Some?
    ensures var f := FeatureFrame(m, model.lags, trig);
      && DropColumn(f, YCol).columns == FeatureColumns(LagDepth(model.lags))
      && Regular(DropColumn(f, YCol)) && Regular(Aligned(DropColumn(f, YCol), model.feats))
      && HistoryMatrix(model, trig, m) == Values(Aligned(DropColumn(f, YCol), model.feats))
  {
    var f := FeatureFrame(m, model.lags, trig);
    HistoryLayout(m, model.lags, trig);
    FeatureFrameRegular(m, model.lags, trig);
    AlignedRegular(DropColumn(f, YCol), model.feats);
  }

  /** The last row of a table without `y`, aligned to the order `fc`. */
  lemma LastRowOrdered(f: Frame, cols: seq<string>, fc: seq<string>)
    requires Regular(DropColumn(f, YCol)) && f.rows != [] && DropColumn(f, YCol).columns == cols
    requires forall q :: 0 <= q < |cols| ==> cols[q] in f.rows[|f.rows| - 1]
    ensures Regular(Aligned(DropColumn(f, YCol), Some(fc)))
    ensures var X := Values(Aligned(DropColumn(f, YCol), Some(fc)));
      |X| == |f.rows| && X[|X| - 1] == OrderedCells(f.rows[|f.rows| - 1], fc, cols)
  {
    AlignedRegular(DropColumn(f, YCol), Some(fc));
    var X := Values(Aligned(DropColumn(f, YCol), Some(fc)));
    forall i | 0 <= i < |fc|
      ensures X[|X| - 1][i] == if fc[i] in cols then f.rows[|f.rows| - 1][fc[i]] else 0.0
    {
      LastOrderedCell(f, cols, fc, i);
    }
  }

  lemma LastOrderedCell(f: Frame, cols: seq<string>, fc: seq<string>, i: nat)
    requires Regular(DropColumn(f, YCol)) && f.rows != [] && DropColumn(f, YCol).columns == cols
    requires forall q :: 0 <= q < |cols| ==> cols[q] in f.rows[|f.rows| - 1]
    requires i < |fc|
    ensures Regular(Aligned(DropColumn(f, YCol), Some(fc)))
    ensures var X := Values(Aligned(DropColumn(f, YCol), Some(fc)));
      |X| == |f.rows| && i < |X[|X| - 1]|
      && X[|X| - 1][i] == if fc[i] in cols then f.rows[|f.rows| - 1][fc[i]] else 0.0
  {
    var g := DropColumn(f, YCol);
    AlignedValues(g, fc, |g.rows| - 1, i);
    if fc[i] in cols {
      KeptCell(f, fc[i]);
    }
  }

  /** Dropping `y` keeps the last row's cell of every remaining column. */
  lemma KeptCell(f: Frame, x: string)
    requires f.rows != [] && x in DropColumn(f, YCol).columns && x in f.rows[|f.rows| - 1]
    ensures var g := DropColumn(f, YCol);
      x in g.rows[|g.rows| - 1] && g.rows[|g.rows| - 1][x] == f.rows[|f.rows| - 1][x]
  {
    assert x != YCol by {
      assert x in Without(f.columns, YCol);
    }
  }

  // ----- The loop as the source runs it

  /** The dict `row` built key by key as the loop body does. */
  method BuildNextRow(hist: seq<real>, month: int, lags: int, trig: Trig, sc: Scenario) returns (row: map<string, real>)
    requires |hist| > 0
    ensures row == NextRow(hist, month, LagDepth(lags), trig, sc)
  {
    row := WriteValues(hist, month, lags, trig);
    row := WritePromoFlags(row, sc.promo);
    row := WriteHolidayFlags(row, sc.holiday);
  }

  /** `y`, the lags loop, `ma3` and the month encodings. */
  method WriteValues(hist: seq<real>, month: int, lags: int, trig: Trig) returns (row: map<string, real>)
    requires |hist| > 0
    ensures row == ValueCells(hist, month, LagDepth(lags), trig)
  {
    var n := |hist|;
    row := WriteLags(map[YCol := hist[n - 1]], hist, lags);
    var ma := if n >= 3 then (hist[n - 3] + hist[n - 2] + hist[n - 1]) / 3.0 else hist[n - 1];
    assert ma == MaValue(hist);
    row := row[MaCol := ma];
    row := row[SinCol := trig.sin(MonthOfYear(month))];
    row := row[CosCol := trig.cos(MonthOfYear(month))];
  }

  /** The `for i in range(1, _NSTEPS+1)` loop over the lags. */
  method WriteLags(base: map<string, real>, hist: seq<real>, lags: int) returns (row: map<string, real>)
    requires |hist| > 0
    ensures row == WithLags(base, hist, LagDepth(lags))
  {
    var n := |hist|;
    row := base;
    var i := 1;
    while i <= lags
      invariant 1 <= i <= LagDepth(lags) + 1
      invariant row == WithLags(base, hist, i - 1)
    {
      row := row[LagName(i) := if n >= i then hist[n - i] else hist[n - 1]];
      i := i + 1;
    }
  }

  /** The `for k in ["A","B","C","D"]` loop over the promotion flags. */
  method WritePromoFlags(values: map<string, real>, promo: Option<string>) returns (row: map<string, real>)
    ensures row == WithPromoFlags(values, promo, 4)
  {
    row := values;
    var q := 0;
    while q < 4
      invariant 0 <= q <= 4
      invariant row == WithPromoFlags(values, promo, q)
    {
      row := row[PromoName(PromoClasses[q]) := if promo == Some(PromoClasses[q]) then 1.0 else 0.0];
      q := q + 1;
    }
  }

  /** The `for k in [1,2,3,4]` loop over the holiday flags. */
  method WriteHolidayFlags(promoted: map<string, real>, holiday: Option<int>) returns (row: map<string, real>)
    ensures row == WithHolidayFlags(promoted, holiday, 4)
  {
    row := promoted;
    var h := 0;
    while h < 4
      invariant 0 <= h <= 4
      invariant row == WithHolidayFlags(promoted, holiday, h)
    {
      row := row[HolidayName(HolidayClasses[h]) := if holiday == Some(HolidayClasses[h] as int) then 1.0 else 0.0];
      h := h + 1;
    }
  }

  /** `X_hist` from the feature table: drop `y`, align to the feature
      order, read out the values. */
  method HistoryValues(model: Model, trig: Trig, m: Monthly, f: Frame) returns (X: seq<seq<real>>)
    requires f == FeatureFrame(m, model.lags, trig)
    ensures X == HistoryMatrix(model, trig, m)
  {
    FeatureFrameRegular(m, model.lags, trig);
    DropColumnFacts(f, YCol);
    var xDf := DropColumn(f, YCol);
    xDf := AlignFeatureOrder(xDf, model.feats);
    AlignedRegular(DropColumn(f, YCol), model.feats);
    X := Values(xDf);
  }

  /** One pass of the `for _ in range(horizon)` body: predict from `x`,
      append the value to `y_hist`, and build and scale the input for the
      month after. */
  method Iteration(model: Model, num: Numerics, sc: Scenario, hist: seq<real>, month: int, x: seq<real>)
    returns (yint: int, hist': seq<real>, x': seq<real>)
    requires model.scaler.PyScaler?
    ensures yint == StepValue(model, num, x)
    ensures hist' == hist + [yint as real]
    ensures x' == NextInput(model, num.trig, sc, hist', month)
  {
    var yhat := model.network(x);
    if model.yLog {
      yhat := Unlogged(model, num, yhat);
    }
    yint := RoundHalfEven(ClampNonNegative(yhat));
    hist' := hist + [yint as real];
    var L := LagDepth(model.lags);
    var row := BuildNextRow(hist', month, model.lags, num.trig, sc);
    NextFrameRegular(hist', month, L, num.trig, sc, None, FeatureColumns(L));
    var nextDf := AlignFeatureOrder(NextFrame(row, month, FeatureColumns(L)), model.feats);
    NextFrameRegular(hist', month, L, num.trig, sc, model.feats, FeatureColumns(L));
    var xNext := Values(nextDf);
    x' := model.scaler.scale(xNext[0]);
  }

  /** `predict_with_lstm_for_product` after `_load_artifacts()`: the same
      guards in the same order, then `horizon` iterations of the loop. */
  method RunForecast(model: Model, num: Numerics, sc: Scenario, t: Sales.Table, product: string, horizon: int)
    returns (r: Result<seq<int>>)
    ensures r == Forecast(model, num, sc, t, product, horizon)
  {
    var sub := Sales.RowsOf(t.rows, product);
    if sub == [] {
      return Err(NoDataForProduct);
    }
    var m := ToMonthly(Sales.Table(sub, t.hasPromotion, t.hasHoliday, t.hasPrice));
    var start := StartOf(model, num.trig, m);
    if start.Err? {
      return Err(start.error);
    }
    var s := start.value;
    var preds := ForecastMonths(model, num, sc, s.hist, s.month, s.x, horizon);
    return Ok(preds);
  }

  /** The part of `predict_with_lstm_for_product` between `_to_monthly` and
      the loop: the feature table (raising when it is empty), `X_hist`
      (raising when the feature order is unusable), its scaling (raising
      when the scaler has no `transform`), `y_hist`,
      `current_month` and `_make_sequence`. */
  method StartOf(model: Model, trig: Trig, m: Monthly) returns (r: Result<State>)
    ensures FeatureFrame(m, model.lags, trig).rows == [] ==> r == Err(EmptyFeatures)
    ensures FeatureFrame(m, model.lags, trig).rows != [] && !model.orderUsable ==> r == Err(UnusableFeatureOrder)
    ensures FeatureFrame(m, model.lags, trig).rows != [] && model.orderUsable && !model.scaler.PyScaler? ==> r == Err(NotAScaler)
    ensures FeatureFrame(m, model.lags, trig).rows != [] && model.orderUsable && model.scaler.PyScaler? ==> r == Ok(Start(model, trig, m))
  {
    var f := BuildFeatures(m, model.lags, trig);
    if f.rows == [] {
      return Err(EmptyFeatures);
    }
    if !model.orderUsable {
      return Err(UnusableFeatureOrder);
    }
    var xHist := HistoryValues(model, trig, m, f);
    if !model.scaler.PyScaler? {
      return Err(NotAScaler);
    }
    StartIs(model, trig, m, f, xHist);
    var s := LoopStart(model.scaler, f, xHist);
    return Ok(s);
  }

  /** `y_hist`, `current_month` and `X_seq` from the feature table and
      `X_hist`. */
  method LoopStart(scaler: PyValue, f: Frame, xHist: seq<seq<real>>) returns (s: State)
    requires scaler.PyScaler? && Regular(f) && YCol in f.columns && f.rows != [] && xHist != []
    ensures s == StartFrom(scaler, f, xHist)
  {
    var x := ScaledLast(scaler, xHist);
    var yHist := Column(f, YCol);
    var current := f.index[|f.index| - 1] + 1;
    s := State(yHist, current, x);
  }

  lemma StartIs(model: Model, trig: Trig, m: Monthly, f: Frame, X: seq<seq<real>>)
    requires model.scaler.PyScaler?
    requires f == FeatureFrame(m, model.lags, trig) && f.rows != [] && X == HistoryMatrix(model, trig, m)
    ensures Regular(f) && YCol in f.columns && X != []
    ensures Start(model, trig, m) == StartFrom(model.scaler, f, X)
  {
    FeatureFrameRegular(m, model.lags, trig);
  }

  /** `_SCALER.transform(X_hist)` followed by `_make_sequence`: the last
      row of the scaled matrix. */
  method ScaledLast(scaler: PyValue, xHist: seq<seq<real>>) returns (x: seq<real>)
    requires scaler.PyScaler? && xHist != []
    ensures x == scaler.scale(xHist[|xHist| - 1])
  {
    var xScaled := seq(|xHist|, k requires 0 <= k < |xHist| => scaler.scale(xHist[k]));
    x := xScaled[|xScaled| - 1];
  }

  /** The `for _ in range(horizon)` loop from the given `y_hist`,
      `current_month` and `X_seq`. */
  method ForecastMonths(model: Model, num: Numerics, sc: Scenario, hist: seq<real>, month: int, x: seq<real>, horizon: int)
    returns (preds: seq<int>)
    requires model.scaler.PyScaler?
    ensures preds == Rollout(ForecastLoop(model, num, sc), State(hist, month, x), if horizon > 0 then horizon else 0)
  {
    ghost var lp := ForecastLoop(model, num, sc);
    ghost var s0 := State(hist, month, x);
    ghost var total: nat := if horizon > 0 then horizon else 0;
    var yHist, current, xs := hist, month, x;
    preds := [];
    var k := 0;
    while k < horizon
      invariant 0 <= k <= total
      invariant preds + Rollout(lp, State(yHist, current, xs), total - k) == Rollout(lp, s0, total)
    {
      ghost var before := State(yHist, current, xs);
      var yint;
      yint, yHist, xs := Iteration(model, num, sc, yHist, current, xs);
      assert Step(lp, before) == State(yHist, current + 1, xs);
      assert Rollout(lp, before, total - k) == [yint] + Rollout(lp, Step(lp, before), total - k - 1);
      assert preds + Rollout(lp, before, total - k) == (preds + [yint]) + Rollout(lp, Step(lp, before), total - k - 1);
      preds := preds + [yint];
      current := current + 1;
      k := k + 1;
    }
  }

  /** The globals `_load_artifacts` leaves, read out. */
  function CachedModel(c: ArtifactCache): Model
    reads c
    requires c.Valid() && c.Loaded()
  {
    var yLog := c.yLog == Some(true);
    Model(c.network.value, c.scaler.value, FeatureOrder(c.feats.value), OrderUsable(c.feats.value), c.nsteps.value,
          yLog, if yLog then c.yMu.value else 0.0, if yLog then c.ySd.value else 1.0)
  }

  /** `predict_with_lstm_for_product(df_all, product_name, horizon,
      promo_code, holi_code)`: load the artifacts once, raising what the
      load raises, then forecast with what the cache holds. A cache that was
      already loaded is left as it was. */
  method PredictForProduct(cache: ArtifactCache, files: Files, num: Numerics, sc: Scenario,
                           t: Sales.Table, product: string, horizon: int)
    returns (r: Result<seq<int>>)
    requires cache.Valid()
    modifies cache
    ensures cache.Valid()
    ensures old(cache.Loaded()) ==> unchanged(cache)
    ensures !cache.Loaded() ==>
      r.Err? && r.error in {ModelFileNotFound, ScalerFileNotFound, ScalerMissingInDict, UnknownScalerFormat, InvalidNSteps}
    ensures cache.Loaded() ==> r == Forecast(CachedModel(cache), num, sc, t, product, horizon)
  {
    var loaded := cache.Load(files);
    if loaded.Err? {
      return Err(loaded.error);
    }
    r := RunForecast(CachedModel(cache), num, sc, t, product, horizon);
  }
}
