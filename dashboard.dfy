/** The helpers of the dashboard page (pages/1_Dashboard.py): money strings
    read as numbers, synonym-normalised column lookup, the portfolio KPI
    fold, the month-keyed portfolio forecast, the monthly quantity and
    revenue table, and the event labels of the months. */
module Dashboard {
  import opened Base
  import opened Strings
  import opened Calendar
  import opened Resample
  import opened Sales
  import opened Monthly

  // ----- _coerce_money

  /** The characters the pattern `[^\d,.\-]` does not remove. */
  predicate MoneyChar(c: char)
  {
    IsDigit(c) || c == ',' || c == '.' || c == '-'
  }

  /** `pd.to_numeric(..., errors="coerce")` on what the cleaning leaves: an
      optional leading minus before an unsigned number. */
  function ParseNumber(s: string): (r: Option<real>)
  {
    if s != [] && s[0] == '-' then
      match ParseUnsigned(s[1..])
      case None => None
      case Some(v) => Some(-v)
    else ParseUnsigned(s)
  }

  /** Lines 34-35: when both separators are present the dots group thousands
      and go, and the comma becomes the decimal point; any comma still
      there is read as a decimal point as well. */
  function NormaliseSeparators(x: string): (r: string)
    ensures ',' !in r
  {
    var y := if ',' in x && '.' in x then ReplaceAll(ReplaceAll(x, ".", ""), ",", ".") else x;
    ReplaceRemovesChar(y, ',', ".");
    ReplaceAll(y, ",", ".")
  }

  /** `_coerce_money` on one cell's string form. */
  function CoerceMoney(s: string): Option<real>
  {
    ParseNumber(NormaliseSeparators(Filter(s, MoneyChar)))
  }

  /** Characters outside digits, `,`, `.` and `-` (a currency prefix,
      spaces, letters) do not affect the value. */
  lemma CoerceMoneyIgnoresNoise(s: string)
    ensures CoerceMoney(s) == CoerceMoney(Filter(s, MoneyChar))
  {
    FilterKeepsAll(Filter(s, MoneyChar), MoneyChar);
  }

  /** Digits, a dot, digits, a comma, digits: the dot groups thousands and
      the comma is the decimal point, so "1.234,56" reads 1234.56. */
  lemma CoerceMoneyGrouped(a: string, b: string, c: string)
    requires AllDigits(a) && AllDigits(b) && AllDigits(c) && a != []
    ensures CoerceMoney(a + "." + b + "," + c) == Some(DigitsValue(a + b) as real + Fraction(c))
  {
    GroupedNormalised(a, b, c);
    ParseJoined(a, b, c);
  }

  lemma GroupedNormalised(a: string, b: string, c: string)
    requires AllDigits(a) && AllDigits(b) && AllDigits(c)
    ensures NormaliseSeparators(Filter(a + "." + b + "," + c, MoneyChar)) == a + b + "." + c
  {
    CleanGrouped(a, b, c);
    NormaliseGrouped(a, b, c);
  }

  lemma ParseJoined(a: string, b: string, c: string)
    requires AllDigits(a) && AllDigits(b) && AllDigits(c) && a != []
    ensures ParseNumber(a + b + "." + c) == Some(DigitsValue(a + b) as real + Fraction(c))
  {
    DigitsJoin(a, b);
    ParseDecimal(a + b, c);
  }

  lemma DigitsJoin(a: string, b: string)
    requires AllDigits(a) && AllDigits(b)
    ensures AllDigits(a + b)
  {
    forall i | 0 <= i < |a + b|
      ensures IsDigit((a + b)[i])
    {
      if i >= |a| {
        assert (a + b)[i] == b[i - |a|];
      }
    }
  }

  /** Digits, a dot, digits: a plain decimal point, so "1234.56" reads
      1234.56. */
  lemma CoerceMoneyPoint(a: string, b: string)
    requires AllDigits(a) && AllDigits(b) && a != []
    ensures CoerceMoney(a + "." + b) == Some(DigitsValue(a) as real + Fraction(b))
  {
    var s := a + "." + b;
    CleanSeparated(a, '.', b);
    NormaliseNoComma(s);
    ParseDecimal(a, b);
  }

  /** A comma with no dot is always a decimal point, never a thousands
      separator: "1,234" reads 1.234. */
  lemma CoerceMoneyLoneComma(a: string, b: string)
    requires AllDigits(a) && AllDigits(b) && a != []
    ensures CoerceMoney(a + "," + b) == Some(DigitsValue(a) as real + Fraction(b))
  {
    var s := a + "," + b;
    CleanSeparated(a, ',', b);
    NormaliseLoneComma(a, b);
    ParseDecimal(a, b);
  }

  /** Two dots and no comma do not parse: the cell becomes missing. */
  lemma CoerceMoneyTwoDots(a: string, b: string, c: string)
    requires AllDigits(a) && AllDigits(b) && AllDigits(c) && a != []
    ensures CoerceMoney(a + "." + b + "." + c) == None
  {
    var rest := b + "." + c;
    assert a + "." + b + "." + c == a + "." + rest;
    assert !AllDigits(rest) by { assert rest[|b|] == '.'; }
    assert ',' !in rest by { DigitsAbsent(b); DigitsAbsent(c); }
    CleanSeparated(a, '.', rest);
    NormaliseNoComma(a + "." + rest);
    ParseSecondDot(a, rest);
  }

  /** "1.234,56" reads 1234.56. */
  lemma CoerceMoneyGroupedExample()
    ensures CoerceMoney("1.234,56") == Some(1234.56)
  {
    DigitsExamples();
    CoerceMoneyGrouped("1", "234", "56");
    assert "1" + "." + "234" + "," + "56" == "1.234,56";
    assert "1" + "234" == "1234";
  }

  /** "1234.56" reads 1234.56 too. */
  lemma CoerceMoneyPointExample()
    ensures CoerceMoney("1234.56") == Some(1234.56)
  {
    DigitsExamples();
    CoerceMoneyPoint("1234", "56");
    assert "1234" + "." + "56" == "1234.56";
  }

  /** "1,234" reads 1.234, not 1234. */
  lemma CoerceMoneyLoneCommaExample()
    ensures CoerceMoney("1,234") == Some(1.234)
  {
    DigitsExamples();
    CoerceMoneyLoneComma("1", "234");
    assert "1" + "," + "234" == "1,234";
  }

  lemma DigitsExamples()
    ensures DigitsValue("1") == 1 && DigitsValue("1234") == 1234
    ensures Fraction("56") == 0.56 && Fraction("234") == 0.234
  {
    assert "1234"[..3] == "123" && "123"[..2] == "12" && "12"[..1] == "1" && "1"[..0] == "";
    assert "56"[..1] == "5" && "5"[..0] == "";
    assert "234"[..2] == "23" && "23"[..1] == "2" && "2"[..0] == "";
    assert Pow10(2) == 100 && Pow10(3) == 1000;
  }

  // The steps the lemmas above rest on.

  lemma DigitsAbsent(s: string)
    requires AllDigits(s)
    ensures '.' !in s && ',' !in s && '-' !in s
  {
  }

  lemma CleanSeparated(a: string, m: char, b: string)
    requires AllDigits(a) && (m == '.' || m == ',')
    requires forall i :: 0 <= i < |b| ==> MoneyChar(b[i])
    ensures Filter(a + [m] + b, MoneyChar) == a + [m] + b
  {
    MoneyAround(a, m, b);
    FilterKeepsAll(a + [m] + b, MoneyChar);
  }

  lemma MoneyAround(a: string, m: char, b: string)
    requires AllDigits(a) && (m == '.' || m == ',')
    requires forall i :: 0 <= i < |b| ==> MoneyChar(b[i])
    ensures forall i :: 0 <= i < |a + [m] + b| ==> MoneyChar((a + [m] + b)[i])
  {
    var s := a + [m] + b;
    forall i | 0 <= i < |s|
      ensures MoneyChar(s[i])
    {
      if i < |a| {
        assert s[i] == a[i];
      } else if i > |a| {
        assert s[i] == b[i - |a| - 1];
      }
    }
  }

  lemma CleanGrouped(a: string, b: string, c: string)
    requires AllDigits(a) && AllDigits(b) && AllDigits(c)
    ensures Filter(a + "." + b + "," + c, MoneyChar) == a + "." + b + "," + c
  {
    CleanSeparated(b, ',', c);
    CleanSeparated(a, '.', b + "," + c);
    assert a + "." + b + "," + c == a + ['.'] + (b + "," + c);
  }

  lemma NormaliseNoComma(s: string)
    requires ',' !in s
    ensures NormaliseSeparators(s) == s
  {
    ReplaceCharAbsent(s, ',', ".");
  }

  lemma NormaliseLoneComma(a: string, b: string)
    requires AllDigits(a) && AllDigits(b)
    ensures NormaliseSeparators(a + "," + b) == a + "." + b
  {
    DigitsAbsent(a);
    DigitsAbsent(b);
    var s := a + "," + b;
    assert s == a + [','] + b;
    assert '.' !in s;
    ReplaceAround(a, ',', b, ',', ".");
    ReplaceCharAbsent(a + "." + b, ',', ".");
  }

  lemma NormaliseGrouped(a: string, b: string, c: string)
    requires AllDigits(a) && AllDigits(b) && AllDigits(c)
    ensures NormaliseSeparators(a + "." + b + "," + c) == a + b + "." + c
  {
    DigitsAbsent(a);
    DigitsAbsent(b);
    DigitsAbsent(c);
    var s := a + "." + b + "," + c;
    assert s == a + ['.'] + (b + "," + c);
    assert s[|a|] == '.' && s[|a| + 1 + |b|] == ',';
    assert '.' !in b + "," + c;
    ReplaceAround(a, '.', b + "," + c, '.', "");
    var t := a + b + "," + c;
    assert a + "" + (b + "," + c) == (a + b) + [','] + c == t;
    ReplaceAround(a + b, ',', c, ',', ".");
    var u := a + b + "." + c;
    assert (a + b) + "." + c == u;
    ReplaceCharAbsent(u, ',', ".");
  }

  /** Digits, a point, digits: the number they spell. */
  lemma ParseDecimal(a: string, b: string)
    requires AllDigits(a) && AllDigits(b) && a != []
    ensures ParseNumber(a + "." + b) == Some(DigitsValue(a) as real + Fraction(b))
  {
    var s := a + "." + b;
    DigitsAbsent(a);
    assert s[0] == a[0];
    IndexAfter(a, b, '.');
    assert s == a + ['.'] + b;
    assert s[..|a|] == a && s[|a| + 1..] == b;
  }

  /** Digits, a point, and a remainder that is not all digits: no number. */
  lemma ParseSecondDot(a: string, rest: string)
    requires AllDigits(a) && a != [] && !AllDigits(rest)
    ensures ParseNumber(a + "." + rest) == None
  {
    var s := a + "." + rest;
    DigitsAbsent(a);
    assert s[0] == a[0];
    IndexAfter(a, rest, '.');
    assert s == a + ['.'] + rest;
    assert s[|a| + 1..] == rest;
  }

  // ----- _norm_name and _find_col

  /** `str.lower()` on one character (ASCII letters). */
  function LowerChar(c: char): (d: char)
    ensures !('A' <= d <= 'Z')
  {
    if 'A' <= c <= 'Z' then (c as int + 32) as char else c
  }

  function Lower(s: string): (r: string)
    ensures |r| == |s| && forall i :: 0 <= i < |s| ==> r[i] == LowerChar(s[i])
  {
    seq(|s|, i requires 0 <= i < |s| => LowerChar(s[i]))
  }

  /** The characters `\w` matches: letters, digits and the underscore. */
  predicate WordChar(c: char)
  {
    'a' <= c <= 'z' || 'A' <= c <= 'Z' || IsDigit(c) || c == '_'
  }

  /** What a normalised name is made of. */
  predicate NameChar(c: char)
  {
    'a' <= c <= 'z' || IsDigit(c) || c == '_'
  }

  /** `_norm_name`: lower-case, drop every run of non-word characters, then
      read the synonyms. The result is made of lower-case letters, digits
      and underscores only. */
  function NormName(s: string): (r: string)
    ensures forall i :: 0 <= i < |r| ==> NameChar(r[i])
  {
    FilterSame(Lower(s), WordChar, NameChar);
    ReadSynonyms(Filter(Lower(s), WordChar))
  }

  /** Lines 44-48: keuntungan, profit and laba read as "untung" and
      pendapatan as "revenue", replaced in that order. Replacing keeps a
      name made of name characters so. */
  function ReadSynonyms(w: string): (r: string)
    ensures (forall i :: 0 <= i < |w| ==> NameChar(w[i])) ==> forall i :: 0 <= i < |r| ==> NameChar(r[i])
  {
    var r1 := ReplaceAll(w, "keuntungan", "untung");
    var r2 := ReplaceAll(r1, "profit", "untung");
    var r3 := ReplaceAll(r2, "laba", "untung");
    var r := ReplaceAll(r3, "pendapatan", "revenue");
    if forall i :: 0 <= i < |w| ==> NameChar(w[i]) then
      ReplaceKeepsClass(w, "keuntungan", "untung", NameChar);
      ReplaceKeepsClass(r1, "profit", "untung", NameChar);
      ReplaceKeepsClass(r2, "laba", "untung", NameChar);
      ReplaceKeepsClass(r3, "pendapatan", "revenue", NameChar);
      r
    else r
  }

  /** A name already made of lower-case letters, digits and underscores and
      holding none of the synonyms is its own normal form. */
  lemma NormNameFixed(s: string)
    requires forall i :: 0 <= i < |s| ==> NameChar(s[i])
    requires !Contains(s, "keuntungan") && !Contains(s, "profit") && !Contains(s, "laba")
    requires !Contains(s, "pendapatan")
    ensures NormName(s) == s
  {
    LowerFixed(s);
    FilterKeepsAll(s, WordChar);
    SynonymsAbsent(s);
    NormNameSteps(s, s);
  }

  lemma NormNameSteps(s: string, w: string)
    requires Filter(Lower(s), WordChar) == w
    ensures NormName(s) == ReadSynonyms(w)
  {
  }

  lemma LowerFixed(s: string)
    requires forall i :: 0 <= i < |s| ==> NameChar(s[i])
    ensures Lower(s) == s
  {
  }

  lemma SynonymsAbsent(s: string)
    requires !Contains(s, "keuntungan") && !Contains(s, "profit") && !Contains(s, "laba")
    requires !Contains(s, "pendapatan")
    ensures ReadSynonyms(s) == s
  {
    ReplaceAbsent(s, "keuntungan", "untung");
    ReplaceAbsent(s, "profit", "untung");
    ReplaceAbsent(s, "laba", "untung");
    ReplaceAbsent(s, "pendapatan", "revenue");
  }

  /** Line 56: every required key occurs in the normalised name and no
      forbidden key does. */
  predicate Matches(n: string, requireAll: seq<string>, forbidAny: seq<string>)
  {
    (forall k :: k in requireAll ==> Contains(n, k)) && (forall k :: k in forbidAny ==> !Contains(n, k))
  }

  /** Column i matches and no column before it does. */
  predicate FirstMatch(columns: seq<string>, requireAll: seq<string>, forbidAny: seq<string>, i: int)
  {
    0 <= i < |columns| && Matches(NormName(columns[i]), requireAll, forbidAny) &&
    forall j :: 0 <= j < i ==> !Matches(NormName(columns[j]), requireAll, forbidAny)
  }

  /** `_find_col` over the frame's columns in order (an absent `forbid_any`
      is the empty list): the first column whose normalised name matches,
      or None when none does. */
  function FindCol(columns: seq<string>, requireAll: seq<string>, forbidAny: seq<string>): (r: Option<string>)
    ensures r.None? <==> forall i :: 0 <= i < |columns| ==> !Matches(NormName(columns[i]), requireAll, forbidAny)
    ensures r.Some? ==> exists i :: FirstMatch(columns, requireAll, forbidAny, i) && columns[i] == r.value
  {
    if columns == [] then None
    else if Matches(NormName(columns[0]), requireAll, forbidAny) then Some(columns[0])
    else
      FindColShift(columns, requireAll, forbidAny);
      FindCol(columns[1..], requireAll, forbidAny)
  }

  /** Past a first column that does not match, the first match of the rest
      is the first match of all, one position on. */
  lemma FindColShift(columns: seq<string>, requireAll: seq<string>, forbidAny: seq<string>)
    requires columns != [] && !Matches(NormName(columns[0]), requireAll, forbidAny)
    ensures forall i :: FirstMatch(columns[1..], requireAll, forbidAny, i) ==> FirstMatch(columns, requireAll, forbidAny, i + 1)
    ensures (forall i :: 0 <= i < |columns[1..]| ==> !Matches(NormName(columns[1..][i]), requireAll, forbidAny)) ==>
      forall i :: 0 <= i < |columns| ==> !Matches(NormName(columns[i]), requireAll, forbidAny)
  {
    assert forall i :: 1 <= i < |columns| ==> columns[i] == columns[1..][i - 1];
  }

  /** Line 60: the per-unit profit column. */
  function ProfitUnitColumn(columns: seq<string>): Option<string>
  {
    FindCol(columns, ["untung", "unit"], ["total"])
  }

  /** Line 61: the total profit column. */
  function ProfitTotalColumn(columns: seq<string>): Option<string>
  {
    FindCol(columns, ["untung", "total"], [])
  }

  /** The two lookups never settle on the same column: the per-unit one
      forbids "total", which the total one requires. */
  lemma ProfitColumnsDiffer(columns: seq<string>)
    requires ProfitUnitColumn(columns).Some? && ProfitTotalColumn(columns).Some?
    ensures ProfitUnitColumn(columns).value != ProfitTotalColumn(columns).value
  {
    var u, t := ProfitUnitColumn(columns).value, ProfitTotalColumn(columns).value;
    var i :| FirstMatch(columns, ["untung", "unit"], ["total"], i) && columns[i] == u;
    var j :| FirstMatch(columns, ["untung", "total"], [], j) && columns[j] == t;
    KeyFacts(NormName(u), ["untung", "unit"], ["total"], "total");
    KeyFacts(NormName(t), ["untung", "total"], [], "total");
  }

  lemma KeyFacts(n: string, requireAll: seq<string>, forbidAny: seq<string>, k: string)
    requires Matches(n, requireAll, forbidAny)
    ensures k in requireAll ==> Contains(n, k)
    ensures k in forbidAny ==> !Contains(n, k)
  {
  }

  // ----- _event_label

  /** `_event_label` of a month start: the four months with a national
      event have a label, every other month has none. */
  function EventLabel(mi: int): (r: Option<string>)
    ensures r.Some? <==> MonthOfYear(mi) in {1, 4, 8, 12}
    ensures r == Some("Tahun Baru") <==> MonthOfYear(mi) == 1
    ensures r == Some("Idul Fitri") <==> MonthOfYear(mi) == 4
    ensures r == Some("HUT RI") <==> MonthOfYear(mi) == 8
    ensures r == Some("Natal") <==> MonthOfYear(mi) == 12
  {
    var m := MonthOfYear(mi);
    if m == 1 then Some("Tahun Baru")
    else if m == 4 then Some("Idul Fitri")
    else if m == 8 then Some("HUT RI")
    else if m == 12 then Some("Natal")
    else None
  }

  /** The labels recur every year. */
  lemma EventLabelYearly(mi: int)
    ensures EventLabel(mi + 12) == EventLabel(mi)
  {
    assert MonthOfYear(mi + 12) == MonthOfYear(mi);
  }

  // ----- compute_kpi

  predicate Sorted(s: seq<real>)
  {
    forall i, j :: 0 <= i < j < |s| ==> s[i] <= s[j]
  }

  function Insert(x: real, s: seq<real>): (r: seq<real>)
    requires Sorted(s)
    ensures Sorted(r) && multiset(r) == multiset(s) + multiset{x} && |r| == |s| + 1
  {
    if s == [] || x <= s[0] then
      SortedCons(x, s);
      [x] + s
    else
      SortedTail(s);
      var t := Insert(x, s[1..]);
      AllAbove(t, s[1..], x, s[0]);
      SortedCons(s[0], t);
      ConsMultiset(s[0], s, t, x);
      [s[0]] + t
  }

  lemma SortedTail(s: seq<real>)
    requires Sorted(s) && s != []
    ensures Sorted(s[1..]) && forall k :: 0 <= k < |s| - 1 ==> s[0] <= s[1..][k]
  {
    forall i, j | 0 <= i < j < |s| - 1
      ensures s[1..][i] <= s[1..][j]
    {
      assert s[1..][i] == s[i + 1] && s[1..][j] == s[j + 1];
    }
    forall k | 0 <= k < |s| - 1
      ensures s[0] <= s[1..][k]
    {
      assert s[1..][k] == s[k + 1];
    }
  }

  lemma SortedCons(b: real, t: seq<real>)
    requires Sorted(t) && forall k :: 0 <= k < |t| ==> b <= t[k]
    ensures Sorted([b] + t)
  {
    var r := [b] + t;
    forall i, j | 0 <= i < j < |r|
      ensures r[i] <= r[j]
    {
      assert r[j] == t[j - 1];
      if i > 0 {
        assert r[i] == t[i - 1];
      }
    }
  }

  lemma ConsMultiset(b: real, s: seq<real>, t: seq<real>, x: real)
    requires s != [] && s[0] == b && multiset(t) == multiset(s[1..]) + multiset{x}
    ensures multiset([b] + t) == multiset(s) + multiset{x}
  {
    assert s == [b] + s[1..];
  }

  lemma AllAbove(t: seq<real>, s: seq<real>, x: real, b: real)
    requires multiset(t) == multiset(s) + multiset{x}
    requires b <= x && forall i :: 0 <= i < |s| ==> b <= s[i]
    ensures forall k :: 0 <= k < |t| ==> b <= t[k]
  {
    forall k | 0 <= k < |t|
      ensures b <= t[k]
    {
      assert t[k] in multiset(t);
      if t[k] != x {
        assert t[k] in multiset(s);
      }
    }
  }

  /** The values in ascending order. */
  function SortReals(s: seq<real>): (r: seq<real>)
    ensures Sorted(r) && multiset(r) == multiset(s) && |r| == |s|
  {
    if s == [] then []
    else
      assert s == s[..|s| - 1] + [s[|s| - 1]];
      Insert(s[|s| - 1], SortReals(s[..|s| - 1]))
  }

  /** Two sorted sequences holding the same values are the same. */
  lemma {:induction false} SortedUnique(a: seq<real>, b: seq<real>)
    requires Sorted(a) && Sorted(b) && multiset(a) == multiset(b)
    ensures a == b
    decreases |a|
  {
    assert |a| == |multiset(a)| == |multiset(b)| == |b|;
    if a != [] {
      SameHead(a, b);
      SortedTail(a);
      SortedTail(b);
      TailMultiset(a);
      TailMultiset(b);
      SortedUnique(a[1..], b[1..]);
      assert a == [a[0]] + a[1..] && b == [b[0]] + b[1..];
    }
  }

  lemma SameHead(a: seq<real>, b: seq<real>)
    requires Sorted(a) && Sorted(b) && multiset(a) == multiset(b) && a != []
    ensures b != [] && a[0] == b[0]
  {
    assert a[0] in multiset(b);
    var j :| 0 <= j < |b| && b[j] == a[0];
    assert b[0] in multiset(a);
    var i :| 0 <= i < |a| && a[i] == b[0];
    assert b[0] <= b[j] && a[0] <= a[i];
  }

  lemma TailMultiset(a: seq<real>)
    requires a != []
    ensures multiset(a[1..]) == multiset(a) - multiset{a[0]}
  {
    assert a == [a[0]] + a[1..];
  }

  /** pandas' `median()`: the middle value in sorted order, or the mean of
      the two middle values of an even count. */
  function Median(s: seq<real>): real
    requires s != []
  {
    var t := SortReals(s);
    var n := |t|;
    if n % 2 == 1 then t[n / 2] else (t[n / 2 - 1] + t[n / 2]) / 2.0
  }

  /** The median does not depend on the order of the rows. */
  lemma MedianOrderFree(s: seq<real>, s': seq<real>)
    requires s != [] && multiset(s) == multiset(s')
    ensures s' != [] && Median(s) == Median(s')
  {
    assert |s'| == |multiset(s')| == |multiset(s)| == |s|;
    SortedUnique(SortReals(s), SortReals(s'));
  }

  /** The median lies within any bounds all the values respect. */
  lemma MedianBetween(s: seq<real>, lo: real, hi: real)
    requires s != [] && forall i :: 0 <= i < |s| ==> lo <= s[i] <= hi
    ensures lo <= Median(s) <= hi
  {
    var t := SortReals(s);
    forall k | 0 <= k < |t|
      ensures lo <= t[k] <= hi
    {
      assert t[k] in multiset(s);
    }
  }

  /** The values present in an optional column, in row order. */
  function PresentValues(xs: seq<Option<real>>): (r: seq<real>)
    ensures |r| <= |xs|
    ensures forall k :: 0 <= k < |r| ==> Some(r[k]) in xs
  {
    if xs == [] then []
    else (if xs[0].Some? then [xs[0].value] else []) + PresentValues(xs[1..])
  }

  /** `sub["_profit_unit"].dropna()`. */
  function UnitProfits(rows: seq<Sale>): seq<real>
  {
    PresentValues(seq(|rows|, i requires 0 <= i < |rows| => rows[i].profitUnit))
  }

  /** `sub["_profit_total"].dropna().sum()`. */
  function TotalProfit(rows: seq<Sale>): real
  {
    Sum(PresentValues(seq(|rows|, i requires 0 <= i < |rows| => rows[i].profitTotal)))
  }

  /** `sub["Jumlah Terjual"].dropna().sum()`. */
  function TotalUnits(rows: seq<Sale>): int
  {
    SumInt(seq(|rows|, i requires 0 <= i < |rows| => rows[i].qty))
  }

  /** Lines 131-139, the per-unit profit of one product. */
  function ProfitRate(rows: seq<Sale>): real
  {
    var units := UnitProfits(rows);
    var median := if units != [] then Some(Median(units)) else None;
    var avg :=
      if (median.None? || median.value == 0.0) && TotalUnits(rows) > 0 && TotalProfit(rows) > 0.0
      then Some(TotalProfit(rows) / TotalUnits(rows) as real)
      else median;
    if avg.None? then 0.0 else avg.value
  }

  /** The fallback chain: the median of the recorded per-unit profits;
      only where that is missing or zero, the historical profit per unit
      sold when both totals are positive; otherwise 0. */
  lemma ProfitRateFallback(rows: seq<Sale>)
    ensures UnitProfits(rows) != [] && Median(UnitProfits(rows)) != 0.0 ==>
      ProfitRate(rows) == Median(UnitProfits(rows))
    ensures (UnitProfits(rows) == [] || Median(UnitProfits(rows)) == 0.0) && TotalUnits(rows) > 0 && TotalProfit(rows) > 0.0 ==>
      ProfitRate(rows) == TotalProfit(rows) / TotalUnits(rows) as real
    ensures (UnitProfits(rows) == [] || Median(UnitProfits(rows)) == 0.0) && !(TotalUnits(rows) > 0 && TotalProfit(rows) > 0.0) ==>
      ProfitRate(rows) == 0.0
  {
  }

  /** With no negative per-unit profit on record the rate is not negative. */
  lemma ProfitRateNonNegative(rows: seq<Sale>)
    requires forall i :: 0 <= i < |rows| ==> rows[i].profitUnit.Some? ==> rows[i].profitUnit.value >= 0.0
    ensures ProfitRate(rows) >= 0.0
  {
    var units := UnitProfits(rows);
    ProfitRateFallback(rows);
    if units != [] {
      var cells := seq(|rows|, i requires 0 <= i < |rows| => rows[i].profitUnit);
      var top := MaxOf(units);
      forall k | 0 <= k < |units|
        ensures 0.0 <= units[k] <= top
      {
        assert Some(units[k]) in cells;
      }
      MedianBetween(units, 0.0, top);
    }
    if TotalUnits(rows) > 0 && TotalProfit(rows) > 0.0 {
      QuotientPositive(TotalProfit(rows), TotalUnits(rows) as real);
    }
  }

  lemma QuotientPositive(p: real, u: real)
    requires p > 0.0 && u > 0.0
    ensures p / u > 0.0
  {
  }

  function MaxOf(s: seq<real>): (m: real)
    requires s != []
    ensures forall i :: 0 <= i < |s| ==> s[i] <= m
  {
    if |s| == 1 then s[0]
    else
      var m' := MaxOf(s[1..]);
      assert forall i :: 1 <= i < |s| ==> s[i] == s[1..][i - 1];
      if s[0] > m' then s[0] else m'
  }

  /** What one product adds to the KPI: nothing when it has no rows or its
      forecast raises, otherwise `int(sum(yhat))` units and those units at
      its rate. */
  datatype Share = Skipped | Counted(units: int, profit: real)

  function ShareOf(t: Table, p: string, predict: string -> Result<seq<int>>): Share
  {
    var sub := RowsOf(t.rows, p);
    if sub == [] then Skipped
    else
      match predict(p)
      case Err(_) => Skipped
      case Ok(yhat) => Counted(SumInt(yhat), Weighted(SumInt(yhat), ProfitRate(sub)))
  }

  /** `units_pred * avg_profit`. */
  function Weighted(units: int, rate: real): real
  {
    units as real * rate
  }

  function ShareUnits(sh: Share): int
  {
    if sh.Counted? then sh.units else 0
  }

  function ShareProfit(sh: Share): real
  {
    if sh.Counted? then sh.profit else 0.0
  }

  /** The units forecast over a list of products. */
  function KpiUnits(t: Table, ps: seq<string>, predict: string -> Result<seq<int>>): int
  {
    if ps == [] then 0 else KpiUnits(t, ps[..|ps| - 1], predict) + ShareUnits(ShareOf(t, ps[|ps| - 1], predict))
  }

  /** The profit forecast over a list of products, before rounding. */
  function KpiProfit(t: Table, ps: seq<string>, predict: string -> Result<seq<int>>): real
  {
    if ps == [] then 0.0 else KpiProfit(t, ps[..|ps| - 1], predict) + ShareProfit(ShareOf(t, ps[|ps| - 1], predict))
  }

  /** `compute_kpi`, with the forecaster `predict_with_lstm_for_product(df_in,
      prod, horizon)` as a parameter: the units forecast over all products,
      and the profit forecast rounded half to even. */
  method ComputeKpi(t: Table, products: seq<string>, predict: string -> Result<seq<int>>)
    returns (units: int, profit: int)
    ensures units == KpiUnits(t, products, predict)
    ensures profit == RoundHalfEven(KpiProfit(t, products, predict))
  {
    var totalUnits := 0;
    var totalProfit := 0.0;
    for i := 0 to |products|
      invariant totalUnits == KpiUnits(t, products[..i], predict)
      invariant totalProfit == KpiProfit(t, products[..i], predict)
    {
      KpiStep(t, products, i, predict);
      var prod := products[i];
      var sub := RowsOf(t.rows, prod);
      if sub == [] {
        assert ShareOf(t, prod, predict) == Skipped;
        continue;
      }
      var yhat := predict(prod);
      if yhat.Err? {
        assert ShareOf(t, prod, predict) == Skipped;
        continue;
      }
      var unitsPred := SumInt(yhat.value);
      totalUnits := totalUnits + unitsPred;
      var avgProfit := ProfitRate(sub);
      ShareCounted(t, prod, predict);
      totalProfit := totalProfit + Weighted(unitsPred, avgProfit);
    }
    assert products[..|products|] == products;
    units := totalUnits;
    profit := RoundHalfEven(totalProfit);
  }

  lemma ShareCounted(t: Table, p: string, predict: string -> Result<seq<int>>)
    requires RowsOf(t.rows, p) != [] && predict(p).Ok?
    ensures ShareOf(t, p, predict)
         == Counted(SumInt(predict(p).value), Weighted(SumInt(predict(p).value), ProfitRate(RowsOf(t.rows, p))))
  {
  }

  lemma KpiStep(t: Table, ps: seq<string>, i: nat, predict: string -> Result<seq<int>>)
    requires i < |ps|
    ensures KpiUnits(t, ps[..i + 1], predict) == KpiUnits(t, ps[..i], predict) + ShareUnits(ShareOf(t, ps[i], predict))
    ensures KpiProfit(t, ps[..i + 1], predict) == KpiProfit(t, ps[..i], predict) + ShareProfit(ShareOf(t, ps[i], predict))
  {
    assert ps[..i + 1][..i] == ps[..i];
  }

  /** Products add up independently: the totals over two lists joined are
      the sums of their totals. */
  lemma {:induction false} KpiAppend(t: Table, a: seq<string>, b: seq<string>, predict: string -> Result<seq<int>>)
    ensures KpiUnits(t, a + b, predict) == KpiUnits(t, a, predict) + KpiUnits(t, b, predict)
    ensures KpiProfit(t, a + b, predict) == KpiProfit(t, a, predict) + KpiProfit(t, b, predict)
    decreases |b|
  {
    if b == [] {
      assert a + b == a;
    } else {
      assert (a + b)[..|a + b| - 1] == a + b[..|b| - 1];
      KpiAppend(t, a, b[..|b| - 1], predict);
    }
  }

  /** A product without rows, or whose forecast raises, changes neither
      total; every other product is still counted. */
  lemma KpiSkipsFailed(t: Table, a: seq<string>, p: string, b: seq<string>, predict: string -> Result<seq<int>>)
    requires RowsOf(t.rows, p) == [] || predict(p).Err?
    ensures KpiUnits(t, a + [p] + b, predict) == KpiUnits(t, a + b, predict)
    ensures KpiProfit(t, a + [p] + b, predict) == KpiProfit(t, a + b, predict)
  {
    KpiAppend(t, a + [p], b, predict);
    KpiAppend(t, a, [p], predict);
    KpiAppend(t, a, b, predict);
    assert [p][..0] == [];
  }

  /** Forecasts that are never negative give a non-negative unit total, and
      with no negative per-unit profit on record a non-negative profit. */
  lemma {:induction false} KpiNonNegative(t: Table, ps: seq<string>, predict: string -> Result<seq<int>>)
    requires forall p :: predict(p).Ok? ==> forall k :: 0 <= k < |predict(p).value| ==> predict(p).value[k] >= 0
    requires forall i :: 0 <= i < |t.rows| ==> t.rows[i].profitUnit.Some? ==> t.rows[i].profitUnit.value >= 0.0
    ensures KpiUnits(t, ps, predict) >= 0 && KpiProfit(t, ps, predict) >= 0.0
    decreases |ps|
  {
    if ps != [] {
      KpiNonNegative(t, ps[..|ps| - 1], predict);
      var p := ps[|ps| - 1];
      var sub := RowsOf(t.rows, p);
      if sub != [] && predict(p).Ok? {
        SumIntNonNegative(predict(p).value);
        forall i | 0 <= i < |sub|
          ensures sub[i].profitUnit.Some? ==> sub[i].profitUnit.value >= 0.0
        {
          assert sub[i] in t.rows;
        }
        ProfitRateNonNegative(sub);
        WeightedNonNegative(SumInt(predict(p).value), ProfitRate(sub));
        ShareCounted(t, p, predict);
      }
    }
  }

  lemma WeightedNonNegative(units: int, rate: real)
    requires units >= 0 && rate >= 0.0
    ensures Weighted(units, rate) >= 0.0
  {
  }

  // ----- _aggregate_pred_monthly

  /** One product's forecast placed on the calendar: the last month of its
      history and the forecast for the months after it. */
  datatype Plan = Plan(last: int, yhat: seq<int>)

  /** Lines 215-227 for one product: nothing when it has no rows, no row
      with a parsed date, or its forecast raises. The `today()` fallback
      for an empty history cannot be reached: the resample of a non-empty
      dated frame is never empty. */
  function PlanOf(t: Table, p: string, predict: string -> Result<seq<int>>): Option<Plan>
  {
    var sub := RowsOf(t.rows, p);
    var es := MonthEntries(sub);
    if sub == [] || es == [] then None
    else
      match predict(p)
      case Err(_) => None
      case Ok(yhat) => Some(Plan(MaxBucket(es), yhat))
  }

  /** A product is placed exactly when it has a row with a parsed date and
      its forecast succeeds; it is placed after its latest dated sale. */
  lemma PlanOfCases(t: Table, p: string, predict: string -> Result<seq<int>>)
    ensures PlanOf(t, p, predict).Some? <==>
      (exists s :: s in t.rows && s.product == p && Parsed(s)) && predict(p).Ok?
    ensures PlanOf(t, p, predict).Some? ==>
      && PlanOf(t, p, predict).value.yhat == predict(p).value
      && (forall s :: s in t.rows && s.product == p && Parsed(s) ==> SaleMonth(s) <= PlanOf(t, p, predict).value.last)
  {
    var sub := RowsOf(t.rows, p);
    var es := MonthEntries(sub);
    MonthEntriesCover(sub);
    if exists s :: s in t.rows && s.product == p && Parsed(s) {
      var s :| s in t.rows && s.product == p && Parsed(s);
      assert s in sub;
    } else {
      forall i | 0 <= i < |sub|
        ensures !Parsed(sub[i])
      {
        assert sub[i] in t.rows;
      }
    }
    if PlanOf(t, p, predict).Some? {
      forall s | s in t.rows && s.product == p && Parsed(s)
        ensures SaleMonth(s) <= MaxBucket(es)
      {
        assert s in sub;
        var i :| 0 <= i < |es| && es[i] == Entry(SaleMonth(s), s.qty as real);
      }
    }
  }

  /** The products that reach line 227, in order. */
  function Plans(t: Table, ps: seq<string>, predict: string -> Result<seq<int>>): seq<Plan>
  {
    if ps == [] then []
    else
      var pl := PlanOf(t, ps[|ps| - 1], predict);
      Plans(t, ps[..|ps| - 1], predict) + (if pl.Some? then [pl.value] else [])
  }

  /** The month m lies in the h months after the plan's last month. */
  predicate Covers(pl: Plan, h: nat, m: int)
  {
    pl.last < m <= pl.last + h
  }

  predicate Covered(plans: seq<Plan>, h: nat, m: int)
  {
    exists i :: 0 <= i < |plans| && Covers(plans[i], h, m)
  }

  /** What one plan adds to month m: `yhat[i]` for the i-th month after
      its last month. */
  function Contribution(pl: Plan, h: nat, m: int): int
  {
    if Covers(pl, h, m) && m - pl.last - 1 < |pl.yhat| then pl.yhat[m - pl.last - 1] else 0
  }

  /** The forecast units of all plans for month m. */
  function Total(plans: seq<Plan>, h: nat, m: int): int
  {
    if plans == [] then 0 else Total(plans[..|plans| - 1], h, m) + Contribution(plans[|plans| - 1], h, m)
  }

  /** How many of a plan's forecasts are placed. */
  function Placed(pl: Plan, h: nat): nat
  {
    if h <= |pl.yhat| then h else |pl.yhat|
  }

  /** The units of every placed forecast of every plan. */
  function PlannedUnits(plans: seq<Plan>, h: nat): int
  {
    if plans == [] then 0
    else
      var pl := plans[|plans| - 1];
      PlannedUnits(plans[..|plans| - 1], h) + SumInt(pl.yhat[..Placed(pl, h)])
  }

  /** One entry of `pd.Series(agg)`: a month start and its units. */
  datatype Point = Point(month: int, units: int)

  function SumUnits(series: seq<Point>): int
  {
    if series == [] then 0 else SumUnits(series[..|series| - 1]) + series[|series| - 1].units
  }

  predicate Listed(series: seq<Point>, m: int)
  {
    exists k :: 0 <= k < |series| && series[k].month == m
  }

  /** The units of all plans over the n months from lo. */
  function WindowTotal(plans: seq<Plan>, h: nat, lo: int, n: nat): int
  {
    if n == 0 then 0 else WindowTotal(plans, h, lo, n - 1) + Total(plans, h, lo + n - 1)
  }

  /** `_aggregate_pred_monthly`, with the forecaster as a parameter whose
      successful forecasts hold at least `horizon` values: the months some
      product's forecast covers, in chronological order, each with the
      units all products forecast for it, summing to the units of all
      placed forecasts. */
  method AggregatePredMonthly(t: Table, products: seq<string>, predict: string -> Result<seq<int>>, horizon: nat)
    returns (series: seq<Point>)
    requires forall p :: predict(p).Ok? ==> |predict(p).value| >= horizon
    ensures forall i, j :: 0 <= i < j < |series| ==> series[i].month < series[j].month
    ensures forall k :: 0 <= k < |series| ==>
      Covered(Plans(t, products, predict), horizon, series[k].month)
      && series[k].units == Total(Plans(t, products, predict), horizon, series[k].month)
    ensures forall m :: Covered(Plans(t, products, predict), horizon, m) ==> Listed(series, m)
    ensures SumUnits(series) == PlannedUnits(Plans(t, products, predict), horizon)
  {
    var agg: map<int, int> := map[];
    ghost var plans: seq<Plan> := [];
    var seen, lo, hi := false, 0, -1;
    for i := 0 to |products|
      invariant plans == Plans(t, products[..i], predict)
      invariant seen <==> plans != []
      invariant lo <= hi + 1
      invariant forall k :: 0 <= k < |plans| ==> lo <= plans[k].last + 1 && plans[k].last + horizon <= hi
      invariant forall m :: m in agg <==> Covered(plans, horizon, m)
      invariant forall m :: m in agg ==> agg[m] == Total(plans, horizon, m)
    {
      PlansStep(t, products, i, predict);
      var prod := products[i];
      var sub := RowsOf(t.rows, prod);
      if sub == [] {
        continue;
      }
      var es := MonthEntries(sub);
      if es == [] {
        continue;
      }
      var lastMonth := MaxBucket(es);
      var yhat := predict(prod);
      if yhat.Err? {
        continue;
      }
      var pl := Plan(lastMonth, yhat.value);
      assert PlanOf(t, prod, predict) == Some(pl);
      agg := AddForecast(agg, plans, pl, horizon);
      plans := plans + [pl];
      if seen {
        lo := if lastMonth + 1 < lo then lastMonth + 1 else lo;
        hi := if lastMonth + horizon > hi then lastMonth + horizon else hi;
      } else {
        lo, hi := lastMonth + 1, lastMonth + horizon;
      }
      seen := true;
    }
    assert products[..|products|] == products;
    series := SortIndex(agg, plans, horizon, lo, hi);
  }

  /** Lines 228-229 for one product: `agg[ts] = agg.get(ts, 0) + yhat[i]`
      for the i-th month after its last month. */
  method AddForecast(agg: map<int, int>, ghost plans: seq<Plan>, pl: Plan, horizon: nat) returns (r: map<int, int>)
    requires |pl.yhat| >= horizon
    requires forall m :: m in agg <==> Covered(plans, horizon, m)
    requires forall m :: m in agg ==> agg[m] == Total(plans, horizon, m)
    ensures forall m :: m in r <==> Covered(plans + [pl], horizon, m)
    ensures forall m :: m in r ==> r[m] == Total(plans + [pl], horizon, m)
  {
    r := agg;
    for j := 0 to horizon
      invariant forall m :: m in r <==> Covered(plans, horizon, m) || pl.last < m <= pl.last + j
      invariant forall m :: m in r ==>
        r[m] == Total(plans, horizon, m) + (if m <= pl.last + j then Contribution(pl, horizon, m) else 0)
    {
      var ts := pl.last + 1 + j;
      if ts !in r {
        TotalUncovered(plans, horizon, ts);
      }
      r := r[ts := (if ts in r then r[ts] else 0) + pl.yhat[j]];
    }
    TotalSnoc(plans, pl, horizon);
  }

  /** `pd.Series(agg).sort_index()`: a scan over the months from the
      earliest to the latest month any plan covers. */
  method SortIndex(agg: map<int, int>, ghost plans: seq<Plan>, horizon: nat, lo: int, hi: int) returns (series: seq<Point>)
    requires lo <= hi + 1
    requires forall k :: 0 <= k < |plans| ==> lo <= plans[k].last + 1 && plans[k].last + horizon <= hi
    requires forall m :: m in agg <==> Covered(plans, horizon, m)
    requires forall m :: m in agg ==> agg[m] == Total(plans, horizon, m)
    ensures forall i, j :: 0 <= i < j < |series| ==> series[i].month < series[j].month
    ensures forall k :: 0 <= k < |series| ==>
      Covered(plans, horizon, series[k].month) && series[k].units == Total(plans, horizon, series[k].month)
    ensures forall m :: Covered(plans, horizon, m) ==> Listed(series, m)
    ensures SumUnits(series) == PlannedUnits(plans, horizon)
  {
    series := [];
    for m := lo to hi + 1
      invariant ScanInvariant(series, plans, horizon, lo, m)
    {
      if m in agg {
        ScanStep(series, plans, horizon, lo, m, true, agg[m]);
        series := series + [Point(m, agg[m])];
      } else {
        ScanStep(series, plans, horizon, lo, m, false, 0);
      }
    }
    ScanDone(series, plans, horizon, lo, hi);
  }

  /** What the scan over months `lo..m-1` has built: the covered months in
      ascending order with their totals, adding up to the window's total. */
  predicate ScanInvariant(series: seq<Point>, plans: seq<Plan>, h: nat, lo: int, m: int)
    requires lo <= m
  {
    && Ascending(series) && Between(series, lo, m) && Faithful(series, plans, h)
    && ListsCovered(series, plans, h, lo, m) && SumUnits(series) == WindowTotal(plans, h, lo, m - lo)
  }

  /** One month of the scan: a covered month is appended with its total,
      an uncovered one is skipped, and the invariants carry over. */
  lemma ScanStep(series: seq<Point>, plans: seq<Plan>, h: nat, lo: int, m: int, present: bool, units: int)
    requires lo <= m && ScanInvariant(series, plans, h, lo, m)
    requires present <==> Covered(plans, h, m)
    requires present ==> units == Total(plans, h, m)
    ensures ScanInvariant(if present then series + [Point(m, units)] else series, plans, h, lo, m + 1)
  {
    WindowStep(plans, h, lo, m);
    if present {
      var pt := Point(m, units);
      AppendPoint(series, pt, plans, h, lo, m);
      ListsCoveredStep(series, series + [pt], plans, h, lo, m);
    } else {
      TotalUncovered(plans, h, m);
      ListsCoveredStep(series, series, plans, h, lo, m);
    }
  }

  /** After the last month the scan lists every covered month, and its
      units add up to the plans' total. */
  lemma ScanDone(series: seq<Point>, plans: seq<Plan>, h: nat, lo: int, hi: int)
    requires lo <= hi + 1
    requires forall k :: 0 <= k < |plans| ==> lo <= plans[k].last + 1 && plans[k].last + h <= hi
    requires ScanInvariant(series, plans, h, lo, hi + 1)
    ensures Ascending(series) && Faithful(series, plans, h)
    ensures forall m :: Covered(plans, h, m) ==> Listed(series, m)
    ensures SumUnits(series) == PlannedUnits(plans, h)
  {
    forall x | Covered(plans, h, x)
      ensures lo <= x <= hi
    {
      var k :| 0 <= k < |plans| && Covers(plans[k], h, x);
    }
    WindowHoldsPlans(plans, h, lo, hi + 1 - lo);
  }

  predicate Ascending(series: seq<Point>)
  {
    forall i, j :: 0 <= i < j < |series| ==> series[i].month < series[j].month
  }

  predicate Between(series: seq<Point>, lo: int, hi: int)
  {
    forall k :: 0 <= k < |series| ==> lo <= series[k].month < hi
  }

  predicate Faithful(series: seq<Point>, plans: seq<Plan>, h: nat)
  {
    forall k :: 0 <= k < |series| ==>
      Covered(plans, h, series[k].month) && series[k].units == Total(plans, h, series[k].month)
  }

  predicate ListsCovered(series: seq<Point>, plans: seq<Plan>, h: nat, lo: int, hi: int)
  {
    forall x :: lo <= x < hi && Covered(plans, h, x) ==> Listed(series, x)
  }

  lemma ListsCoveredStep(series: seq<Point>, next: seq<Point>, plans: seq<Plan>, h: nat, lo: int, m: int)
    requires ListsCovered(series, plans, h, lo, m)
    requires forall x :: Listed(series, x) ==> Listed(next, x)
    requires Covered(plans, h, m) ==> Listed(next, m)
    ensures ListsCovered(next, plans, h, lo, m + 1)
  {
  }

  lemma WindowStep(plans: seq<Plan>, h: nat, lo: int, m: int)
    requires lo <= m
    ensures WindowTotal(plans, h, lo, m + 1 - lo) == WindowTotal(plans, h, lo, m - lo) + Total(plans, h, m)
  {
  }

  /** Appending the next covered month keeps the scan's invariants. */
  lemma AppendPoint(series: seq<Point>, pt: Point, plans: seq<Plan>, h: nat, lo: int, m: int)
    requires Ascending(series) && Between(series, lo, m) && Faithful(series, plans, h)
    requires pt.month == m && lo <= m && Covered(plans, h, m) && pt.units == Total(plans, h, m)
    ensures Ascending(series + [pt]) && Between(series + [pt], lo, m + 1) && Faithful(series + [pt], plans, h)
    ensures forall x :: Listed(series, x) ==> Listed(series + [pt], x)
    ensures Listed(series + [pt], m)
    ensures SumUnits(series + [pt]) == SumUnits(series) + pt.units
  {
    ListedSnoc(series, pt);
    var r := series + [pt];
    forall k | 0 <= k < |series|
      ensures r[k] == series[k]
    {
    }
  }

  lemma PlansStep(t: Table, ps: seq<string>, i: nat, predict: string -> Result<seq<int>>)
    requires i < |ps|
    ensures Plans(t, ps[..i + 1], predict)
         == Plans(t, ps[..i], predict) + (if PlanOf(t, ps[i], predict).Some? then [PlanOf(t, ps[i], predict).value] else [])
  {
    assert ps[..i + 1][..i] == ps[..i];
  }

  lemma ListedSnoc(series: seq<Point>, pt: Point)
    ensures forall x :: Listed(series, x) ==> Listed(series + [pt], x)
    ensures Listed(series + [pt], pt.month)
    ensures SumUnits(series + [pt]) == SumUnits(series) + pt.units
  {
    var r := series + [pt];
    assert r[..|r| - 1] == series;
    assert r[|series|].month == pt.month;
    forall x | Listed(series, x)
      ensures Listed(r, x)
    {
      var k :| 0 <= k < |series| && series[k].month == x;
      assert r[k] == series[k];
    }
  }

  /** A month no plan covers gets nothing. */
  lemma {:induction false} TotalUncovered(plans: seq<Plan>, h: nat, m: int)
    requires !Covered(plans, h, m)
    ensures Total(plans, h, m) == 0
    decreases |plans|
  {
    if plans != [] {
      var init := plans[..|plans| - 1];
      forall k | 0 <= k < |init|
        ensures !Covers(init[k], h, m)
      {
        assert init[k] == plans[k];
      }
      TotalUncovered(init, h, m);
      assert !Covers(plans[|plans| - 1], h, m);
    }
  }

  lemma TotalSnoc(plans: seq<Plan>, pl: Plan, h: nat)
    ensures forall m :: Total(plans + [pl], h, m) == Total(plans, h, m) + Contribution(pl, h, m)
    ensures forall m :: Covered(plans + [pl], h, m) <==> Covered(plans, h, m) || Covers(pl, h, m)
  {
    var r := plans + [pl];
    assert r[..|r| - 1] == plans;
    forall m | Covered(plans, h, m)
      ensures Covered(r, h, m)
    {
      var k :| 0 <= k < |plans| && Covers(plans[k], h, m);
      assert r[k] == plans[k];
    }
    forall m | Covers(pl, h, m)
      ensures Covered(r, h, m)
    {
      assert r[|plans|] == pl;
    }
    forall m | Covered(r, h, m)
      ensures Covered(plans, h, m) || Covers(pl, h, m)
    {
      var k :| 0 <= k < |r| && Covers(r[k], h, m);
      if k < |plans| {
        assert r[k] == plans[k];
      }
    }
  }

  /** The window total of one plan. */
  function WindowContribution(pl: Plan, h: nat, lo: int, n: nat): int
  {
    if n == 0 then 0 else WindowContribution(pl, h, lo, n - 1) + Contribution(pl, h, lo + n - 1)
  }

  /** Totals over a window add up plan by plan. */
  lemma {:induction false} WindowSnoc(plans: seq<Plan>, pl: Plan, h: nat, lo: int, n: nat)
    ensures WindowTotal(plans + [pl], h, lo, n) == WindowTotal(plans, h, lo, n) + WindowContribution(pl, h, lo, n)
  {
    if n > 0 {
      WindowSnoc(plans, pl, h, lo, n - 1);
      TotalSnoc(plans, pl, h);
    }
  }

  /** A window from lo holds a plan's placed forecasts up to its last month
      in it. */
  lemma {:induction false} WindowPrefix(pl: Plan, h: nat, lo: int, n: nat)
    requires lo <= pl.last + 1
    ensures var k := lo + n - 1 - pl.last;
      WindowContribution(pl, h, lo, n) == SumInt(pl.yhat[..if k < 0 then 0 else if k < Placed(pl, h) then k else Placed(pl, h)])
  {
    if n > 0 {
      WindowPrefix(pl, h, lo, n - 1);
      var k := lo + n - 1 - pl.last;
      if 1 <= k <= Placed(pl, h) {
        assert pl.yhat[..k][..k - 1] == pl.yhat[..k - 1];
      }
    }
  }

  /** A window that holds every placed forecast sums to all of them. */
  lemma {:induction false} WindowHoldsPlans(plans: seq<Plan>, h: nat, lo: int, n: nat)
    requires forall k :: 0 <= k < |plans| ==> lo <= plans[k].last + 1 && plans[k].last + h <= lo + n - 1
    ensures WindowTotal(plans, h, lo, n) == PlannedUnits(plans, h)
    decreases |plans|
  {
    if plans == [] {
      WindowEmpty(h, lo, n);
    } else {
      var init, pl := plans[..|plans| - 1], plans[|plans| - 1];
      assert plans == init + [pl];
      WindowHoldsPlans(init, h, lo, n);
      WindowSnoc(init, pl, h, lo, n);
      WindowPrefix(pl, h, lo, n);
    }
  }

  lemma {:induction false} WindowEmpty(h: nat, lo: int, n: nat)
    ensures WindowTotal([], h, lo, n) == 0
  {
    if n > 0 {
      WindowEmpty(h, lo, n - 1);
    }
  }

  lemma PlannedUnitsSnoc(plans: seq<Plan>, pl: Plan, h: nat)
    ensures PlannedUnits(plans + [pl], h) == PlannedUnits(plans, h) + SumInt(pl.yhat[..Placed(pl, h)])
  {
    assert (plans + [pl])[..|plans|] == plans;
  }

  /** On the page's table, where every date parsed (lines 28-29), and with
      forecasts of exactly `horizon` values, the chart's months add up to
      the KPI's unit total: both skip the same products. */
  lemma {:induction false} ChartMatchesKpi(t: Table, ps: seq<string>, predict: string -> Result<seq<int>>, h: nat)
    requires forall i :: 0 <= i < |t.rows| ==> Parsed(t.rows[i])
    requires forall p :: predict(p).Ok? ==> |predict(p).value| == h
    ensures PlannedUnits(Plans(t, ps, predict), h) == KpiUnits(t, ps, predict)
    decreases |ps|
  {
    if ps != [] {
      var init, p := ps[..|ps| - 1], ps[|ps| - 1];
      ChartMatchesKpi(t, init, predict, h);
      var pl := PlanOf(t, p, predict);
      var plans := Plans(t, init, predict);
      PlanMatchesShare(t, p, predict, h);
      if pl.Some? {
        PlannedUnitsSnoc(plans, pl.value, h);
      } else {
        assert plans + [] == plans;
      }
    }
  }

  /** One product: placed on the chart exactly when counted by the KPI,
      with the same units. */
  lemma PlanMatchesShare(t: Table, p: string, predict: string -> Result<seq<int>>, h: nat)
    requires forall i :: 0 <= i < |t.rows| ==> Parsed(t.rows[i])
    requires forall p :: predict(p).Ok? ==> |predict(p).value| == h
    ensures PlanOf(t, p, predict).Some? <==> ShareOf(t, p, predict).Counted?
    ensures PlanOf(t, p, predict).Some? ==>
      var pl := PlanOf(t, p, predict).value;
      SumInt(pl.yhat[..Placed(pl, h)]) == ShareUnits(ShareOf(t, p, predict))
  {
    var sub := RowsOf(t.rows, p);
    if sub != [] {
      MonthEntriesCover(sub);
      assert sub[0] in t.rows;
    }
    if PlanOf(t, p, predict).Some? {
      var pl := PlanOf(t, p, predict).value;
      assert pl.yhat[..Placed(pl, h)] == pl.yhat;
      ShareCounted(t, p, predict);
    }
  }

  // ----- build_monthly_agg

  /** `Revenue_item`: price times quantity. */
  function Revenue(s: Sale): real
  {
    s.price * s.qty as real
  }

  /** The `Revenue_item` column, row by row. */
  function ItemRevenues(rows: seq<Sale>): (r: seq<real>)
    ensures |r| == |rows| && forall i :: 0 <= i < |rows| ==> r[i] == Revenue(rows[i])
  {
    seq(|rows|, i requires 0 <= i < |rows| => Revenue(rows[i]))
  }

  /** One observation per row whose date parsed: its month and its revenue. */
  function RevenueEntries(rows: seq<Sale>): seq<Entry>
  {
    if rows == [] then []
    else
      (if Parsed(rows[0]) then [Entry(SaleMonth(rows[0]), Revenue(rows[0]))] else [])
      + RevenueEntries(rows[1..])
  }

  /** Reference definition: the revenue of month `mi` over the rows whose
      date parsed. */
  function MonthRevenue(rows: seq<Sale>, mi: int): real
  {
    if rows == [] then 0.0
    else (if Parsed(rows[0]) && SaleMonth(rows[0]) == mi then Revenue(rows[0]) else 0.0)
         + MonthRevenue(rows[1..], mi)
  }

  function DatedRevenue(rows: seq<Sale>): real
  {
    if rows == [] then 0.0
    else (if Parsed(rows[0]) then Revenue(rows[0]) else 0.0) + DatedRevenue(rows[1..])
  }

  /** The monthly frame: quantity per month and, where the upload had a
      `Harga` column and a dated row, revenue per month. */
  datatype MonthlyAgg = MonthlyAgg(quantity: Series, revenue: Option<Series>)

  /** The uploaded frame `df_in`, which `build_monthly_agg` writes to. */
  class SalesFrame {
    var table: Table
    /** The `Revenue_item` column, once computed. */
    var revenueItem: Option<seq<real>>

    constructor (t: Table)
      ensures table == t && revenueItem == None
    {
      table := t;
      revenueItem := None;
    }

    /** `build_monthly_agg`: monthly quantity, monthly revenue when the
        frame has prices, and, as a side effect, the frame's
        `Revenue_item` column. `Harga` is already numeric here (line 38),
        so its re-coercion on line 148 leaves it as it is. */
    method BuildMonthlyAgg() returns (m: MonthlyAgg)
      modifies this
      ensures table == old(table)
      ensures revenueItem == if table.hasPrice then Some(ItemRevenues(table.rows)) else old(revenueItem)
      ensures m.quantity == Aggregate(MonthEntries(table.rows))
      ensures m.revenue == if table.hasPrice && MonthEntries(table.rows) != []
        then Some(Aggregate(RevenueEntries(table.rows))) else None
    {
      var quantity := Aggregate(MonthEntries(table.rows));
      var revenue: Series := Series(0, []);
      if table.hasPrice {
        revenueItem := Some(ItemRevenues(table.rows));
        revenue := Aggregate(RevenueEntries(table.rows));
        RevenueEntriesAlign(table.rows);
      }
      m := MonthlyAgg(quantity, if revenue.values != [] then Some(revenue) else None);
    }
  }

  /** Revenue is observed on exactly the rows and months quantity is. */
  lemma {:induction false} RevenueEntriesAlign(rows: seq<Sale>)
    ensures |RevenueEntries(rows)| == |MonthEntries(rows)|
    ensures forall i :: 0 <= i < |rows| && i < |RevenueEntries(rows)| ==>
      RevenueEntries(rows)[i].bucket == MonthEntries(rows)[i].bucket
    decreases |rows|
  {
    if rows != [] {
      RevenueEntriesAlign(rows[1..]);
    }
  }

  /** The revenue column lines up with the quantity column: same first
      month, same number of months. */
  lemma MonthlyRevenueSpan(rows: seq<Sale>)
    ensures Aggregate(RevenueEntries(rows)).start == Aggregate(MonthEntries(rows)).start
    ensures |Aggregate(RevenueEntries(rows)).values| == |Aggregate(MonthEntries(rows)).values|
  {
    RevenueEntriesAlign(rows);
    SameBucketsSameSpan(RevenueEntries(rows), MonthEntries(rows));
  }

  /** Each month's revenue is the price times quantity of its dated rows. */
  lemma {:induction false} MonthlyRevenueValues(rows: seq<Sale>, mi: int)
    ensures BucketTotal(RevenueEntries(rows), mi) == MonthRevenue(rows, mi)
    decreases |rows|
  {
    if rows != [] {
      MonthlyRevenueValues(rows[1..], mi);
      if Parsed(rows[0]) {
        assert RevenueEntries(rows) == [Entry(SaleMonth(rows[0]), Revenue(rows[0]))] + RevenueEntries(rows[1..]);
        BucketTotalCons(Entry(SaleMonth(rows[0]), Revenue(rows[0])), RevenueEntries(rows[1..]), mi);
      } else {
        assert RevenueEntries(rows) == RevenueEntries(rows[1..]);
      }
    }
  }

  /** The monthly revenue sums to the revenue of every dated row. */
  lemma MonthlyRevenueConserves(rows: seq<Sale>)
    ensures Sum(Aggregate(RevenueEntries(rows)).values) == DatedRevenue(rows)
  {
    AggregateConserves(RevenueEntries(rows));
    RevenueAmounts(rows);
  }

  lemma {:induction false} RevenueAmounts(rows: seq<Sale>)
    ensures Sum(Amounts(RevenueEntries(rows))) == DatedRevenue(rows)
    decreases |rows|
  {
    if rows != [] {
      var rest := RevenueEntries(rows[1..]);
      RevenueAmounts(rows[1..]);
      if Parsed(rows[0]) {
        assert RevenueEntries(rows) == [Entry(SaleMonth(rows[0]), Revenue(rows[0]))] + rest;
        assert Amounts(RevenueEntries(rows)) == [Revenue(rows[0])] + Amounts(rest);
        SumCons(Revenue(rows[0]), Amounts(rest));
      } else {
        assert RevenueEntries(rows) == rest;
      }
    }
  }
}
