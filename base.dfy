/** Shared vocabulary of the forecasting core: optional values, the errors the
    Python code raises, sums over sequences and Python's `round`. */
module Base {

  datatype Option<+T> = None | Some(value: T)

  /** The exceptions the core raises, one constructor per raise site. */
  datatype Error =
    | ModelFileNotFound        // FileNotFoundError in _load_artifacts
    | ScalerFileNotFound       // joblib.load on a missing file
    | ScalerMissingInDict      // "Scaler tidak ditemukan di dict."
    | UnknownScalerFormat      // "Format scaler tidak dikenali."
    | InvalidNSteps            // int(n_steps) raising on a bundle's n_steps
    | NotAScaler               // _SCALER.transform on a value without it
    | NoDataForProduct         // "Tidak ada data untuk produk: ..."
    | EmptyFeatures            // "Fitur kosong setelah konstruksi. ..."
    | UnusableFeatureOrder     // _align_feature_order on a feature_cols that is not a list
    | TooFewWeeks              // weekly page: fewer than 12 usable weeks
    | WeeklyModelNotFound      // weekly page: model or scaler file missing

  datatype Result<+T> = Ok(value: T) | Err(error: Error)

  /** Sum of a sequence of reals, folded from the left as Python's `sum` does. */
  function Sum(s: seq<real>): real
  {
    if s == [] then 0.0 else Sum(s[..|s| - 1]) + s[|s| - 1]
  }

  function SumInt(s: seq<int>): int
  {
    if s == [] then 0 else SumInt(s[..|s| - 1]) + s[|s| - 1]
  }

  lemma {:induction false} SumAppend(a: seq<real>, b: seq<real>)
    ensures Sum(a + b) == Sum(a) + Sum(b)
    decreases |b|
  {
    if b == [] {
      assert a + b == a;
    } else {
      assert (a + b)[..|a + b| - 1] == a + b[..|b| - 1];
      SumAppend(a, b[..|b| - 1]);
    }
  }

  lemma {:induction false} SumIntAppend(a: seq<int>, b: seq<int>)
    ensures SumInt(a + b) == SumInt(a) + SumInt(b)
    decreases |b|
  {
    if b == [] {
      assert a + b == a;
    } else {
      assert (a + b)[..|a + b| - 1] == a + b[..|b| - 1];
      SumIntAppend(a, b[..|b| - 1]);
    }
  }

  lemma {:induction false} SumIntNonNegative(s: seq<int>)
    requires forall i :: 0 <= i < |s| ==> s[i] >= 0
    ensures SumInt(s) >= 0
    decreases |s|
  {
    if s != [] {
      SumIntNonNegative(s[..|s| - 1]);
    }
  }

  /** Python's `max(0, x)`. */
  function ClampNonNegative(x: real): (r: real)
    ensures r >= 0.0 && r >= x
    ensures r == x || r == 0.0
  {
    if x > 0.0 then x else 0.0
  }

  /** Python's `round` on a float: the nearest integer, and on a tie (a
      fractional part of exactly one half) the even one of the two. */
  function RoundHalfEven(x: real): (r: int)
    ensures x - 0.5 <= r as real <= x + 0.5
    ensures (r as real - x == 0.5 || x - r as real == 0.5) ==> r % 2 == 0
    ensures x >= 0.0 ==> r >= 0
  {
    var f := x.Floor;
    var frac := x - f as real;
    if frac < 0.5 then f
    else if frac > 0.5 then f + 1
    else if f % 2 == 0 then f
    else f + 1
  }

  /** The two clauses of RoundHalfEven's contract pin its result down: no other
      integer is as close to x, or as close and even. */
  lemma RoundHalfEvenUnique(x: real, n: int)
    requires x - 0.5 <= n as real <= x + 0.5
    requires (n as real - x == 0.5 || x - n as real == 0.5) ==> n % 2 == 0
    ensures n == RoundHalfEven(x)
  {
  }
}
