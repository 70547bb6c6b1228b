/** `_align_feature_order` and the frame operations around it: dropping the
    target column and reading a frame out as a matrix in column order. */
module Align {
  import opened Base
  import opened Features

  /** A frame as pandas keeps it: one label per row, and every row has
      exactly the frame's columns. */
  predicate Regular(f: Frame)
  {
    |f.index| == |f.rows| && forall k :: 0 <= k < |f.rows| ==> f.rows[k].Keys == ColumnSet(f.columns)
  }

  /** The columns of a sequence that are not `c`, in order. */
  function Without(cs: seq<string>, c: string): (r: seq<string>)
    ensures forall x :: x in r <==> x in cs && x != c
  {
    if cs == [] then []
    else (if cs[0] == c then [] else [cs[0]]) + Without(cs[1..], c)
  }

  /** `feats.drop(columns=[c])`. */
  function DropColumn(f: Frame, c: string): (r: Frame)
    ensures r.index == f.index && |r.rows| == |f.rows|
  {
    Frame(f.index, Without(f.columns, c), seq(|f.rows|, k requires 0 <= k < |f.rows| => f.rows[k] - {c}))
  }

  /** Dropping a column keeps the frame regular and every other cell. */
  lemma DropColumnFacts(f: Frame, c: string)
    requires Regular(f)
    ensures var r := DropColumn(f, c);
      && Regular(r)
      && c !in r.columns
      && (forall x :: x in r.columns <==> x in f.columns && x != c)
      && (forall k, x :: 0 <= k < |f.rows| && x in r.rows[k] ==> r.rows[k][x] == f.rows[k][x])
  {
    var r := DropColumn(f, c);
    forall k | 0 <= k < |r.rows|
      ensures r.rows[k].Keys == ColumnSet(r.columns)
    {
      assert r.rows[k] == f.rows[k] - {c};
    }
  }

  /** The result `_align_feature_order` promises: with no feature order the
      frame itself; otherwise exactly the listed columns in the listed
      order, each cell copied from the frame when it has the column and 0.0
      when it does not. */
  function Aligned(f: Frame, featureCols: Option<seq<string>>): (r: Frame)
  {
    if featureCols.None? then f
    else
      var fc := featureCols.value;
      Frame(f.index, fc,
            seq(|f.rows|, k requires 0 <= k < |f.rows| =>
              map c | c in fc :: if c in f.rows[k] then f.rows[k][c] else 0.0))
  }

  /** `df[cols]`: the listed columns, in the listed order. */
  function Select(g: Frame, cols: seq<string>): (r: Frame)
    requires forall k, c :: 0 <= k < |g.rows| && c in cols ==> c in g.rows[k]
    ensures r.index == g.index && r.columns == cols && |r.rows| == |g.rows|
  {
    Frame(g.index, cols, seq(|g.rows|, k requires 0 <= k < |g.rows| => map c | c in cols :: g.rows[k][c]))
  }

  /** `[c for c in feature_cols if c in df.columns]`. */
  function Present(fc: seq<string>, columns: seq<string>): (r: seq<string>)
    ensures forall c :: c in r <==> c in fc && c in columns
  {
    if fc == [] then []
    else (if fc[0] in columns then [fc[0]] else []) + Present(fc[1..], columns)
  }

  /** `df[m] = 0.0` for a column the frame does not have. */
  function AddZeroColumn(g: Frame, c: string): (r: Frame)
    ensures r.index == g.index && r.columns == g.columns + [c] && |r.rows| == |g.rows|
    ensures forall k :: 0 <= k < |g.rows| ==> r.rows[k] == g.rows[k][c := 0.0]
  {
    Frame(g.index, g.columns + [c], seq(|g.rows|, k requires 0 <= k < |g.rows| => g.rows[k][c := 0.0]))
  }

  /** The loop `for m in missing: df_feats[m] = 0.0`, over the names in
      whatever order the set yields them: every row gains each missing
      name as a 0.0 cell and keeps its own cells. */
  method AddMissing(f: Frame, missing: set<string>) returns (g: Frame)
    requires Regular(f)
    requires forall c :: c in missing ==> c !in f.columns
    ensures g.index == f.index && |g.rows| == |f.rows|
    ensures forall k, c :: 0 <= k < |g.rows| ==> (c in g.rows[k] <==> c in f.rows[k] || c in missing)
    ensures forall k, c :: 0 <= k < |g.rows| && c in f.rows[k] ==> c in g.rows[k] && g.rows[k][c] == f.rows[k][c]
    ensures forall k, c :: 0 <= k < |g.rows| && c in missing ==> c in g.rows[k] && g.rows[k][c] == 0.0
  {
    var todo := missing;
    ghost var done := {};
    g := f;
    while todo != {}
      invariant done == missing - todo && todo <= missing
      invariant g.index == f.index && |g.rows| == |f.rows|
      invariant forall k, c :: 0 <= k < |g.rows| ==> (c in g.rows[k] <==> c in f.rows[k] || c in done)
      invariant forall k, c :: 0 <= k < |g.rows| && c in f.rows[k] ==> c in g.rows[k] && g.rows[k][c] == f.rows[k][c]
      invariant forall k, c :: 0 <= k < |g.rows| && c in done ==> c in g.rows[k] && g.rows[k][c] == 0.0
      decreases |todo|
    {
      var c :| c in todo;
      forall k | 0 <= k < |g.rows|
        ensures c !in f.rows[k]
      {
        assert c !in ColumnSet(f.columns);
      }
      g := AddZeroColumn(g, c);
      todo, done := todo - {c}, done + {c};
    }
    assert done == missing;
  }

  /** `_align_feature_order(df_feats, feature_cols)`: with no feature
      order the frame as it is; otherwise the missing columns are added as
      zeros and the listed columns selected. */
  method AlignFeatureOrder(f: Frame, featureCols: Option<seq<string>>) returns (r: Frame)
    requires Regular(f)
    ensures r == Aligned(f, featureCols)
  {
    if featureCols.None? {
      return f;
    }
    var fc := featureCols.value;
    var cols := Present(fc, f.columns);
    var missing := (set c | c in fc) - (set c | c in cols);
    var g := AddMissing(f, missing);
    forall k, c | 0 <= k < |g.rows| && c in fc
      ensures c in g.rows[k]
    {
      if c in f.columns {
        assert c in ColumnSet(f.columns);
      } else {
        assert c !in cols && c in missing;
      }
    }
    r := Select(g, fc);
    forall k | 0 <= k < |f.rows|
      ensures r.rows[k] == Aligned(f, featureCols).rows[k]
    {
      forall c | c in fc
        ensures r.rows[k][c] == (if c in f.rows[k] then f.rows[k][c] else 0.0)
      {
        if c !in f.rows[k] {
          assert c !in ColumnSet(f.columns) && c !in cols && c in missing;
        }
      }
    }
  }

  /** With a feature order, the aligned frame has exactly those columns, in
      that order, keeps the labels, and holds every listed cell: the
      frame's own where it had the column, 0.0 where it did not. Every
      other column is gone. */
  lemma AlignedFacts(f: Frame, fc: seq<string>)
    requires Regular(f)
    ensures var r := Aligned(f, Some(fc));
      && r.columns == fc && r.index == f.index
      && Regular(r)
      && (forall k, c :: 0 <= k < |f.rows| && c in fc && c in f.columns ==> r.rows[k][c] == f.rows[k][c])
      && (forall k, c :: 0 <= k < |f.rows| && c in fc && c !in f.columns ==> r.rows[k][c] == 0.0)
      && (forall k, c :: 0 <= k < |f.rows| && c !in fc ==> c !in r.rows[k])
  {
    var r := Aligned(f, Some(fc));
    forall k, c | 0 <= k < |f.rows| && c in fc && c !in f.columns
      ensures r.rows[k][c] == 0.0
    {
      assert c !in ColumnSet(f.columns);
    }
    forall k, c | 0 <= k < |f.rows| && c in fc && c in f.columns
      ensures r.rows[k][c] == f.rows[k][c]
    {
      assert c in ColumnSet(f.columns);
    }
  }

  /** Aligning an aligned frame again changes nothing. */
  lemma AlignIdempotent(f: Frame, featureCols: Option<seq<string>>)
    requires Regular(f)
    ensures Aligned(Aligned(f, featureCols), featureCols) == Aligned(f, featureCols)
  {
    if featureCols.Some? {
      var fc := featureCols.value;
      var r := Aligned(f, featureCols);
      var r2 := Aligned(r, featureCols);
      forall k | 0 <= k < |r.rows|
        ensures r2.rows[k] == r.rows[k]
      {
        assert r2.rows[k].Keys == r.rows[k].Keys;
      }
    }
  }

  /** `df.values`: row k lists its cells in column order. */
  function Values(f: Frame): (x: seq<seq<real>>)
    requires Regular(f)
    ensures |x| == |f.rows| && forall k :: 0 <= k < |x| ==> |x[k]| == |f.columns|
  {
    seq(|f.rows|, k requires 0 <= k < |f.rows| =>
      seq(|f.columns|, i requires 0 <= i < |f.columns| =>
        assert f.columns[i] in ColumnSet(f.columns); f.rows[k][f.columns[i]]))
  }

  /** Reading an aligned frame puts each listed column's cell at that
      column's position. */
  lemma AlignedValues(f: Frame, fc: seq<string>, k: int, i: int)
    requires Regular(f) && 0 <= k < |f.rows| && 0 <= i < |fc|
    ensures Regular(Aligned(f, Some(fc)))
    ensures var x := Values(Aligned(f, Some(fc)))[k][i];
      x == if fc[i] in f.columns then f.rows[k][fc[i]] else 0.0
  {
    AlignedFacts(f, fc);
  }
}
