/** Monthly aggregation of one product's rows (`_mode_safe` and `_to_monthly`
    in utils/model_infer.py): the month-start quantity series and, per month,
    the modal promotion and holiday code. */
module Monthly {
  import opened Base
  import opened Strings
  import opened Calendar
  import opened Resample
  import opened Sales

  // ----- The modal code of a month

  /** The non-missing codes, in order (`pd.Series(s).dropna()`). */
  function Present(codes: seq<Option<string>>): (r: seq<string>)
    ensures forall v :: v in r <==> Some(v) in codes
    ensures |r| <= |codes|
  {
    if codes == [] then []
    else (if codes[0].Some? then [codes[0].value] else []) + Present(codes[1..])
  }

  function Count(s: seq<string>, v: string): nat
  {
    multiset(s)[v]
  }

  /** A code pandas holds as a non-negative integer: exactly the digits
      `str(n)` writes for it, without leading zeros. */
  predicate IsNumericCode(a: string)
  {
    AllDigits(a) && a == NatStr(DigitsValue(a))
  }

  /** The order in which `Series.mode` sorts its modes: integer codes by
      value (2 before 10), other codes as strings; in a column mixing both,
      integers come first. */
  predicate CodeLe(a: string, b: string)
  {
    if IsNumericCode(a) && IsNumericCode(b) then DigitsValue(a) <= DigitsValue(b)
    else if IsNumericCode(a) || IsNumericCode(b) then IsNumericCode(a)
    else LexLe(a, b)
  }

  lemma CodeLeTotal(a: string, b: string)
    ensures CodeLe(a, b) || CodeLe(b, a)
  {
    if !IsNumericCode(a) && !IsNumericCode(b) {
      LexLeTotal(a, b);
    }
  }

  lemma CodeLeTransitive(a: string, b: string, c: string)
    requires CodeLe(a, b) && CodeLe(b, c)
    ensures CodeLe(a, c)
  {
    if !IsNumericCode(a) && !IsNumericCode(b) && !IsNumericCode(c) {
      LexLeTransitive(a, b, c);
    }
  }

  lemma CodeLeAntisymmetric(a: string, b: string)
    requires CodeLe(a, b) && CodeLe(b, a)
    ensures a == b
  {
    if !IsNumericCode(a) && !IsNumericCode(b) {
      LexLeAntisymmetric(a, b);
    }
  }

  /** `a` ranks at least as high as `b` in `Series.mode`: it occurs more often,
      or as often and sorts first (pandas returns the modes sorted and the
      code takes the first). */
  predicate Beats(s: seq<string>, a: string, b: string)
  {
    Count(s, a) > Count(s, b) || (Count(s, a) == Count(s, b) && CodeLe(a, b))
  }

  /** A mode of `s` as `m.iloc[0]` picks it. */
  predicate IsFirstMode(s: seq<string>, m: string)
  {
    m in s && forall v :: v in s ==> Beats(s, m, v)
  }

  lemma BeatsReflexive(s: seq<string>, a: string)
    ensures Beats(s, a, a)
  {
    if !IsNumericCode(a) {
      LexLeReflexive(a);
    }
  }

  lemma BeatsTotal(s: seq<string>, a: string, b: string)
    ensures Beats(s, a, b) || Beats(s, b, a)
  {
    CodeLeTotal(a, b);
  }

  lemma BeatsTransitive(s: seq<string>, a: string, b: string, c: string)
    requires Beats(s, a, b) && Beats(s, b, c)
    ensures Beats(s, a, c)
  {
    if Count(s, a) == Count(s, b) == Count(s, c) {
      CodeLeTransitive(a, b, c);
    }
  }

  /** The best-ranked of the candidates. */
  function BestOf(s: seq<string>, cands: seq<string>): (r: string)
    requires cands != []
    ensures r in cands
    decreases |cands|
  {
    if |cands| == 1 then cands[0]
    else
      var b := BestOf(s, cands[1..]);
      if Beats(s, cands[0], b) then cands[0] else b
  }

  lemma {:induction false} BestOfBeatsAll(s: seq<string>, cands: seq<string>)
    requires cands != []
    ensures forall v :: v in cands ==> Beats(s, BestOf(s, cands), v)
    decreases |cands|
  {
    var r := BestOf(s, cands);
    if |cands| == 1 {
      BeatsReflexive(s, r);
    } else {
      var b := BestOf(s, cands[1..]);
      BestOfBeatsAll(s, cands[1..]);
      forall v | v in cands
        ensures Beats(s, r, v)
      {
        if v == cands[0] {
          BeatsTotal(s, v, b);
          BeatsReflexive(s, v);
        } else {
          assert v in cands[1..];
          if r != b {
            BeatsTransitive(s, r, b, v);
          }
        }
      }
    }
  }

  /** `_mode_safe`: None when no code is present, otherwise the first mode. */
  function ModeSafe(codes: seq<Option<string>>): (r: Option<string>)
    ensures r.None? <==> Present(codes) == []
    ensures r.Some? ==> Some(r.value) in codes
  {
    var s := Present(codes);
    if s == [] then None else Some(BestOf(s, s))
  }

  /** What `_mode_safe` promises: no code when none is present, otherwise
      a most frequent present code, the smallest among equally frequent
      ones. */
  predicate IsModalCode(codes: seq<Option<string>>, r: Option<string>)
  {
    (r.None? <==> Present(codes) == []) && (r.Some? ==> IsFirstMode(Present(codes), r.value))
  }

  lemma ModeSafeIsModalCode(codes: seq<Option<string>>)
    ensures IsModalCode(codes, ModeSafe(codes))
  {
    if Present(codes) != [] {
      BestOfBeatsAll(Present(codes), Present(codes));
    }
  }

  /** There is only one first mode, so the order in which the rows are met
      does not change the result. */
  lemma FirstModeUnique(s: seq<string>, m1: string, m2: string)
    requires IsFirstMode(s, m1) && IsFirstMode(s, m2)
    ensures m1 == m2
  {
    assert Beats(s, m1, m2) && Beats(s, m2, m1);
    CodeLeAntisymmetric(m1, m2);
  }

  /** Integer codes tie-break by value: with one row each of holiday codes
      10 and 2, the month's code is 2 (as a string, "10" would sort
      first). */
  lemma IntegerCodesTieByValue()
    ensures ModeSafe([Some("10"), Some("2")]) == Some("2")
  {
    var codes := [Some("10"), Some("2")];
    assert codes[1..] == [Some("2")] && codes[1..][1..] == [];
    var s := Present(codes);
    assert s == ["10", "2"];
    NatStrValue(10);
    NatStrValue(2);
    assert NatStr(10) == "10" && NatStr(2) == "2";
    assert CodeLe("2", "10") && !CodeLe("10", "2");
    assert Count(s, "10") == 1 && Count(s, "2") == 1;
    assert s[1..] == ["2"];
    assert BestOf(s, s) == "2" by {
      assert BestOf(s, s[1..]) == "2";
      assert !Beats(s, "10", "2");
    }
  }

  // ----- The month-start series

  /** A product's monthly series; a code series, when the column exists, has
      one entry per month of `y`, starting at the same month. */
  datatype Monthly = Monthly(y: Series, promo: Option<seq<Option<string>>>, holiday: Option<seq<Option<string>>>)

  /** One observation per row whose date parsed: its month and its
      quantity, in row order. */
  function MonthEntries(rows: seq<Sale>): (es: seq<Entry>)
    ensures |es| <= |rows|
  {
    if rows == [] then []
    else
      (if Parsed(rows[0]) then [Entry(SaleMonth(rows[0]), rows[0].qty as real)] else [])
      + MonthEntries(rows[1..])
  }

  /** Every parsed row has its observation, and there is none when no row's
      date parsed. */
  lemma {:induction false} MonthEntriesCover(rows: seq<Sale>)
    ensures forall s :: s in rows && Parsed(s) ==> Entry(SaleMonth(s), s.qty as real) in MonthEntries(rows)
    ensures MonthEntries(rows) == [] <==> forall i :: 0 <= i < |rows| ==> !Parsed(rows[i])
    decreases |rows|
  {
    if rows != [] {
      MonthEntriesCover(rows[1..]);
      var es := MonthEntries(rows);
      var rest := MonthEntries(rows[1..]);
      if Parsed(rows[0]) {
        assert es == [Entry(SaleMonth(rows[0]), rows[0].qty as real)] + rest;
      } else {
        assert es == rest;
        if rest == [] {
          forall i | 0 <= i < |rows|
            ensures !Parsed(rows[i])
          {
            if i > 0 {
              assert rows[i] == rows[1..][i - 1];
            }
          }
        }
      }
      forall s | s in rows && Parsed(s)
        ensures Entry(SaleMonth(s), s.qty as real) in es
      {
        if s != rows[0] {
          assert s in rows[1..];
        }
      }
    }
  }

  /** The codes of the kept rows falling in month `mi`. */
  function CodesInMonth(rows: seq<Sale>, mi: int, promo: bool): (r: seq<Option<string>>)
    ensures |r| <= |rows|
  {
    if rows == [] then []
    else
      (if SaleMonth(rows[0]) == mi then [if promo then rows[0].promo else rows[0].holiday] else [])
      + CodesInMonth(rows[1..], mi, promo)
  }

  /** `groupby(pd.Grouper(key="Tanggal", freq="MS"))[col].agg(_mode_safe)`
      over the months of `y`. */
  function MonthlyModes(rows: seq<Sale>, y: Series, promo: bool): (r: seq<Option<string>>)
    ensures |r| == |y.values|
    ensures forall k :: 0 <= k < |r| ==> r[k] == ModeSafe(CodesInMonth(rows, y.start + k, promo))
  {
    seq(|y.values|, k requires 0 <= k < |y.values| => ModeSafe(CodesInMonth(rows, y.start + k, promo)))
  }

  /** `_to_monthly`: drop the rows whose date did not parse, sum the
      quantities per month from the first to the last month seen, and take
      the modal code per month of each code column the table has. */
  function ToMonthly(t: Table): (m: Monthly)
    ensures m.promo.Some? <==> t.hasPromotion
    ensures m.holiday.Some? <==> t.hasHoliday
    ensures m.promo.Some? ==> |m.promo.value| == |m.y.values|
    ensures m.holiday.Some? ==> |m.holiday.value| == |m.y.values|
  {
    var d := Dated(t.rows);
    var y := Aggregate(MonthEntries(t.rows));
    Monthly(y,
            if t.hasPromotion then Some(MonthlyModes(d, y, true)) else None,
            if t.hasHoliday then Some(MonthlyModes(d, y, false)) else None)
  }

  /** Reference definition: the quantity sold in month `mi`, over the rows
      whose date parsed. */
  function MonthQuantity(rows: seq<Sale>, mi: int): real
  {
    if rows == [] then 0.0
    else (if Parsed(rows[0]) && SaleMonth(rows[0]) == mi then rows[0].qty as real else 0.0)
         + MonthQuantity(rows[1..], mi)
  }

  /** Total quantity over the rows whose date parsed. */
  function DatedQuantity(rows: seq<Sale>): real
  {
    if rows == [] then 0.0
    else (if Parsed(rows[0]) then rows[0].qty as real else 0.0) + DatedQuantity(rows[1..])
  }

  lemma {:induction false} SumCons(x: real, s: seq<real>)
    ensures Sum([x] + s) == x + Sum(s)
  {
    SumAppend([x], s);
    assert [x][..0] == [];
  }

  lemma {:induction false} BucketTotalIsMonthQuantity(rows: seq<Sale>, mi: int)
    ensures BucketTotal(MonthEntries(rows), mi) == MonthQuantity(rows, mi)
    decreases |rows|
  {
    if rows != [] {
      BucketTotalIsMonthQuantity(rows[1..], mi);
      if Parsed(rows[0]) {
        assert MonthEntries(rows) == [Entry(SaleMonth(rows[0]), rows[0].qty as real)] + MonthEntries(rows[1..]);
        BucketTotalCons(Entry(SaleMonth(rows[0]), rows[0].qty as real), MonthEntries(rows[1..]), mi);
      } else {
        assert MonthEntries(rows) == MonthEntries(rows[1..]);
      }
    }
  }

  lemma {:induction false} AmountsIsDatedQuantity(rows: seq<Sale>)
    ensures Sum(Amounts(MonthEntries(rows))) == DatedQuantity(rows)
    decreases |rows|
  {
    if rows != [] {
      var rest := MonthEntries(rows[1..]);
      AmountsIsDatedQuantity(rows[1..]);
      if Parsed(rows[0]) {
        assert MonthEntries(rows) == [Entry(SaleMonth(rows[0]), rows[0].qty as real)] + rest;
        assert Amounts(MonthEntries(rows)) == [rows[0].qty as real] + Amounts(rest);
        SumCons(rows[0].qty as real, Amounts(rest));
      } else {
        assert MonthEntries(rows) == rest;
      }
    }
  }

  /** Each value of the `_to_monthly` series is the quantity sold in its
      month (0 for a month without rows). */
  lemma ToMonthlyValues(t: Table, k: int)
    requires 0 <= k < |ToMonthly(t).y.values|
    ensures ToMonthly(t).y.values[k] == MonthQuantity(t.rows, ToMonthly(t).y.start + k)
  {
    BucketTotalIsMonthQuantity(t.rows, ToMonthly(t).y.start + k);
  }

  /** The series neither loses nor invents quantity: it sums to the total of
      the rows whose date parsed, and those whose date did not parse add
      nothing. */
  lemma ToMonthlyConserves(t: Table)
    ensures Sum(ToMonthly(t).y.values) == DatedQuantity(t.rows)
  {
    AggregateConserves(MonthEntries(t.rows));
    AmountsIsDatedQuantity(t.rows);
  }

  /** The series spans every month holding a parsed row, and is empty exactly
      when no row's date parsed. */
  lemma ToMonthlySpan(t: Table)
    ensures var y := ToMonthly(t).y;
      && (forall s :: s in t.rows && Parsed(s) ==> y.start <= SaleMonth(s) < y.start + |y.values|)
      && (y.values == [] <==> forall i :: 0 <= i < |t.rows| ==> !Parsed(t.rows[i]))
  {
    var es := MonthEntries(t.rows);
    var y := Aggregate(es);
    MonthEntriesCover(t.rows);
    forall s | s in t.rows && Parsed(s)
      ensures y.start <= SaleMonth(s) < y.start + |y.values|
    {
      var i :| 0 <= i < |es| && es[i] == Entry(SaleMonth(s), s.qty as real);
    }
  }

  /** The monthly modal promotion code of `_to_monthly`: None when the month
      has no present code, otherwise the first mode of the month's present
      codes. */
  lemma ToMonthlyPromoCodes(t: Table, m: Monthly, k: int)
    requires m == ToMonthly(t)
    requires 0 <= k < |m.y.values|
    ensures m.promo.Some? ==> IsModalCode(CodesInMonth(Dated(t.rows), m.y.start + k, true), m.promo.value[k])
  {
    MonthlyModesAreModal(Dated(t.rows), m.y, true, k);
  }

  /** Likewise the monthly modal holiday code. */
  lemma ToMonthlyHolidayCodes(t: Table, m: Monthly, k: int)
    requires m == ToMonthly(t)
    requires 0 <= k < |m.y.values|
    ensures m.holiday.Some? ==> IsModalCode(CodesInMonth(Dated(t.rows), m.y.start + k, false), m.holiday.value[k])
  {
    MonthlyModesAreModal(Dated(t.rows), m.y, false, k);
  }

  lemma MonthlyModesAreModal(d: seq<Sale>, y: Series, promo: bool, k: int)
    requires 0 <= k < |y.values|
    ensures IsModalCode(CodesInMonth(d, y.start + k, promo), MonthlyModes(d, y, promo)[k])
  {
    ModeSafeIsModalCode(CodesInMonth(d, y.start + k, promo));
  }
}
