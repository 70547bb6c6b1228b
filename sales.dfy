/** The transaction table the pages hand to the core, after the upload page
    has normalised its column names. */
module Sales {
  import opened Base
  import opened Calendar

  /** One row. Money columns are already coerced to numbers; a code column
      holds the code's string form, None where the cell is missing. */
  datatype Sale = Sale(
    date: Option<Date>,         // Tanggal; None where it did not parse
    product: string,            // Nama Produk
    qty: int,                   // Jumlah Terjual
    price: real,                // Harga (0.0 where missing)
    profitUnit: Option<real>,   // _profit_unit
    profitTotal: Option<real>,  // _profit_total
    promo: Option<string>,      // Promotion
    holiday: Option<string>)    // Holiday

  /** The rows, and which optional columns the upload had. */
  datatype Table = Table(rows: seq<Sale>, hasPromotion: bool, hasHoliday: bool, hasPrice: bool)

  /** `pd.to_datetime(..., errors="coerce")` keeps the row. */
  predicate Parsed(s: Sale)
  {
    s.date.Some? && ValidDate(s.date.value)
  }

  /** The month index of a row's date; used only for rows that Parsed. */
  function SaleMonth(s: Sale): int
  {
    if s.date.Some? then MonthIndex(s.date.value) else 0
  }

  /** `df[df["Nama Produk"] == product]`, in row order. */
  function RowsOf(rows: seq<Sale>, product: string): (r: seq<Sale>)
    ensures forall i :: 0 <= i < |r| ==> r[i] in rows && r[i].product == product
    ensures forall s :: s in rows && s.product == product ==> s in r
    ensures |r| <= |rows|
  {
    if rows == [] then []
    else (if rows[0].product == product then [rows[0]] else []) + RowsOf(rows[1..], product)
  }

  /** `dropna(subset=["Tanggal"])` after the date parse, in row order. */
  function Dated(rows: seq<Sale>): (r: seq<Sale>)
    ensures |r| <= |rows|
  {
    if rows == [] then []
    else (if Parsed(rows[0]) then [rows[0]] else []) + Dated(rows[1..])
  }

  /** Dated keeps exactly the rows whose date parsed. */
  lemma {:induction false} DatedKeepsParsed(rows: seq<Sale>)
    ensures forall s :: s in Dated(rows) <==> s in rows && Parsed(s)
    decreases |rows|
  {
    if rows != [] {
      DatedKeepsParsed(rows[1..]);
      var rest := Dated(rows[1..]);
      if Parsed(rows[0]) {
        assert Dated(rows) == [rows[0]] + rest;
      } else {
        assert Dated(rows) == rest;
      }
      assert forall s :: s in rows <==> s == rows[0] || s in rows[1..];
    }
  }
  /** RowsOf filters row by row: over a concatenation it is the concatenation
      of the two filtered parts, and a single row is kept exactly when its
      product matches; together these fix the result and its order. */
  lemma {:induction false} RowsOfAppend(a: seq<Sale>, b: seq<Sale>, product: string)
    ensures RowsOf(a + b, product) == RowsOf(a, product) + RowsOf(b, product)
    decreases |a|
  {
    if a == [] {
      assert a + b == b;
    } else {
      assert (a + b)[1..] == a[1..] + b;
      RowsOfAppend(a[1..], b, product);
    }
  }

  /** RowsOf keeps every copy of a matching row and no copy of any other. */
  lemma {:induction false} RowsOfCounts(rows: seq<Sale>, product: string)
    ensures forall s :: multiset(RowsOf(rows, product))[s] == if s.product == product then multiset(rows)[s] else 0
    decreases |rows|
  {
    if rows != [] {
      RowsOfCounts(rows[1..], product);
      assert rows == [rows[0]] + rows[1..];
    }
  }

  /** Dated filters row by row, like RowsOf: it distributes over
      concatenation and keeps a single row exactly when its date parsed. */
  lemma {:induction false} DatedAppend(a: seq<Sale>, b: seq<Sale>)
    ensures Dated(a + b) == Dated(a) + Dated(b)
    decreases |a|
  {
    if a == [] {
      assert a + b == b;
    } else {
      var head := if Parsed(a[0]) then [a[0]] else [];
      assert (a + b)[0] == a[0] && (a + b)[1..] == a[1..] + b;
      DatedAppend(a[1..], b);
      assert Dated(a + b) == head + (Dated(a[1..]) + Dated(b));
      assert head + (Dated(a[1..]) + Dated(b)) == (head + Dated(a[1..])) + Dated(b);
    }
  }

  /** Dated keeps every copy of a row whose date parsed and no copy of any
      other. */
  lemma {:induction false} DatedCounts(rows: seq<Sale>)
    ensures forall s :: multiset(Dated(rows))[s] == if Parsed(s) then multiset(rows)[s] else 0
    decreases |rows|
  {
    if rows != [] {
      DatedCounts(rows[1..]);
      assert rows == [rows[0]] + rows[1..];
    }
  }
}
