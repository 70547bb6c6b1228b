/** Group-by-period-and-sum followed by a regular resample, the shape of
    `groupby("Tanggal").sum().resample(freq).sum()`: one value per period
    from the first observed period to the last, periods without observations
    counting 0. Periods are integers (a month index, a week index). */
module Resample {
  import opened Base

  /** One observation: the period it falls in and the amount it adds. */
  datatype Entry = Entry(bucket: int, amount: real)

  /** A gap-free series: `values[k]` belongs to period `start + k`. */
  datatype Series = Series(start: int, values: seq<real>)

  function Amounts(es: seq<Entry>): (r: seq<real>)
    ensures |r| == |es| && forall i :: 0 <= i < |es| ==> r[i] == es[i].amount
  {
    seq(|es|, i requires 0 <= i < |es| => es[i].amount)
  }

  /** Sum of the amounts observed in period b. */
  function BucketTotal(es: seq<Entry>, b: int): real
  {
    if es == [] then 0.0
    else BucketTotal(es[..|es| - 1], b) + (if es[|es| - 1].bucket == b then es[|es| - 1].amount else 0.0)
  }

  /** BucketTotal adds from the back; adding a first observation adds its
      amount when it falls in the period. */
  lemma {:induction false} BucketTotalCons(e: Entry, es: seq<Entry>, b: int)
    ensures BucketTotal([e] + es, b) == (if e.bucket == b then e.amount else 0.0) + BucketTotal(es, b)
    decreases |es|
  {
    if es != [] {
      assert ([e] + es)[..|[e] + es| - 1] == [e] + es[..|es| - 1];
      BucketTotalCons(e, es[..|es| - 1], b);
    }
  }

  /** A period without observations totals 0 (the resample's fill value). */
  lemma {:induction false} BucketTotalUnobserved(es: seq<Entry>, b: int)
    requires forall i :: 0 <= i < |es| ==> es[i].bucket != b
    ensures BucketTotal(es, b) == 0.0
    decreases |es|
  {
    if es != [] {
      BucketTotalUnobserved(es[..|es| - 1], b);
    }
  }

  function MinBucket(es: seq<Entry>): (m: int)
    requires es != []
    ensures forall i :: 0 <= i < |es| ==> m <= es[i].bucket
    ensures exists i :: 0 <= i < |es| && es[i].bucket == m
  {
    if |es| == 1 then es[0].bucket
    else
      var m' := MinBucket(es[1..]);
      if es[0].bucket < m' then es[0].bucket else m'
  }

  function MaxBucket(es: seq<Entry>): (m: int)
    requires es != []
    ensures forall i :: 0 <= i < |es| ==> es[i].bucket <= m
    ensures exists i :: 0 <= i < |es| && es[i].bucket == m
  {
    if |es| == 1 then es[0].bucket
    else
      var m' := MaxBucket(es[1..]);
      if es[0].bucket > m' then es[0].bucket else m'
  }

  /** The resampled series of a set of observations. */
  function Aggregate(es: seq<Entry>): (s: Series)
    ensures es == [] ==> s.values == []
    ensures es != [] ==> s.start == MinBucket(es) && s.start + |s.values| - 1 == MaxBucket(es)
    ensures forall k :: 0 <= k < |s.values| ==> s.values[k] == BucketTotal(es, s.start + k)
  {
    if es == [] then Series(0, [])
    else
      var lo := MinBucket(es);
      Series(lo, seq(MaxBucket(es) - lo + 1, k requires 0 <= k <= MaxBucket(es) - lo => BucketTotal(es, lo + k)))
  }

  /** Total over the n periods from lo. */
  function RangeTotal(es: seq<Entry>, lo: int, n: nat): real
  {
    if n == 0 then 0.0 else RangeTotal(es, lo, n - 1) + BucketTotal(es, lo + n - 1)
  }

  lemma {:induction false} SumIsRangeTotal(s: Series, es: seq<Entry>, n: nat)
    requires n <= |s.values|
    requires forall k :: 0 <= k < |s.values| ==> s.values[k] == BucketTotal(es, s.start + k)
    ensures Sum(s.values[..n]) == RangeTotal(es, s.start, n)
  {
    if n > 0 {
      assert s.values[..n][..n - 1] == s.values[..n - 1];
      SumIsRangeTotal(s, es, n - 1);
    }
  }

  lemma {:induction false} RangeTotalSnoc(es: seq<Entry>, e: Entry, lo: int, n: nat)
    ensures RangeTotal(es + [e], lo, n)
         == RangeTotal(es, lo, n) + (if lo <= e.bucket < lo + n then e.amount else 0.0)
  {
    assert (es + [e])[..|es|] == es;
    if n > 0 {
      RangeTotalSnoc(es, e, lo, n - 1);
    }
  }

  lemma {:induction false} RangeTotalCovers(es: seq<Entry>, lo: int, n: nat)
    requires forall i :: 0 <= i < |es| ==> lo <= es[i].bucket < lo + n
    ensures RangeTotal(es, lo, n) == Sum(Amounts(es))
    decreases |es|
  {
    if es == [] {
      RangeTotalZero(lo, n);
    } else {
      var init, e := es[..|es| - 1], es[|es| - 1];
      assert es == init + [e];
      RangeTotalCovers(init, lo, n);
      RangeTotalSnoc(init, e, lo, n);
      assert Amounts(es)[..|es| - 1] == Amounts(init);
    }
  }

  lemma {:induction false} RangeTotalZero(lo: int, n: nat)
    ensures RangeTotal([], lo, n) == 0.0
  {
    if n > 0 {
      RangeTotalZero(lo, n - 1);
    }
  }

  /** Resampling neither loses nor invents quantity: the series sums to the
      total of the observations. */
  lemma AggregateConserves(es: seq<Entry>)
    ensures Sum(Aggregate(es).values) == Sum(Amounts(es))
  {
    var s := Aggregate(es);
    if es != [] {
      SumIsRangeTotal(s, es, |s.values|);
      assert s.values[..|s.values|] == s.values;
      RangeTotalCovers(es, s.start, |s.values|);
    }
  }

  /** The span of the series depends only on which periods were observed, so
      two quantities observed on the same rows resample onto the same index. */
  lemma {:induction false} SameBucketsSameSpan(a: seq<Entry>, b: seq<Entry>)
    requires |a| == |b| && forall i :: 0 <= i < |a| ==> a[i].bucket == b[i].bucket
    ensures Aggregate(a).start == Aggregate(b).start
    ensures |Aggregate(a).values| == |Aggregate(b).values|
  {
    if a != [] {
      var ia :| 0 <= ia < |a| && a[ia].bucket == MinBucket(a);
      var ib :| 0 <= ib < |b| && b[ib].bucket == MinBucket(b);
      assert MinBucket(a) <= b[ib].bucket && MinBucket(b) <= a[ia].bucket;
      var ja :| 0 <= ja < |a| && a[ja].bucket == MaxBucket(a);
      var jb :| 0 <= jb < |b| && b[jb].bucket == MaxBucket(b);
      assert MaxBucket(a) >= b[jb].bucket && MaxBucket(b) >= a[ja].bucket;
    }
  }
}
