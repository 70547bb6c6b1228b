/** The forecaster's artifacts: the scaler file's contents, how
    `_pick_feature_scaler` reads them, and the load-once cache that
    `_load_artifacts` keeps in module globals. The Keras network and the
    sklearn scaler are foreign; they appear as function values. */
module Artifacts {
  import opened Base
  import opened Strings

  /** The network's `predict` on one input row (shape (1, 1, n)), squeezed
      to a number. */
  type Network = seq<real> -> real

  /** A fitted scaler's `transform` on one row; sklearn's scalers transform
      every row on its own. */
  type Scale = seq<real> -> seq<real>

  /** The Python values a scaler bundle can hold. */
  datatype PyValue =
    | PyNone
    | PyBool(b: bool)
    | PyInt(i: int)
    | PyFloat(x: real)
    | PyStr(s: string)
    | PyList(names: seq<string>)
    | PyScaler(scale: Scale)

  /** What `joblib.load` returns: a bare fitted scaler (an object with
      `transform`), a dict bundle, or anything else. */
  datatype Artifact =
    | Transformer(scale: Scale)
    | Bundle(entries: map<string, PyValue>)
    | Unrecognised

  /** Python's truth value of an object. */
  predicate Truthy(v: PyValue)
  {
    match v
    case PyNone => false
    case PyBool(b) => b
    case PyInt(i) => i != 0
    case PyFloat(x) => x != 0.0
    case PyStr(s) => s != ""
    case PyList(names) => names != []
    case PyScaler(_) => true
  }

  /** `d.get(key, default)`. */
  function Get(d: map<string, PyValue>, key: string, default: PyValue): (v: PyValue)
    ensures key in d ==> v == d[key]
    ensures key !in d ==> v == default
  {
    if key in d then d[key] else default
  }

  /** Python's `a or b`: `a` when it is truthy, `b` otherwise. */
  function Or(a: PyValue, b: PyValue): (v: PyValue)
    ensures Truthy(a) ==> v == a
    ensures !Truthy(a) ==> v == b
  {
    if Truthy(a) then a else b
  }

  /** The strings Python's `int()` reads: an optional sign and at least one
      decimal digit. None where it raises. */
  function IntNumeral(s: string): Option<int>
  {
    if s != [] && (s[0] == '-' || s[0] == '+') then
      (if |s| > 1 && AllDigits(s[1..])
       then var n: int := DigitsValue(s[1..]); Some(if s[0] == '-' then -n else n)
       else None)
    else if s != [] && AllDigits(s) then Some(DigitsValue(s))
    else None
  }

  /** The strings Python's `float()` reads: an optional sign before an
      unsigned decimal numeral. None where it raises. */
  function RealNumeral(s: string): Option<real>
  {
    var negative := s != [] && s[0] == '-';
    var body := if s != [] && (s[0] == '-' || s[0] == '+') then s[1..] else s;
    match ParseUnsigned(body)
    case None => None
    case Some(x) => Some(if negative then -x else x)
  }

  /** Python's `int(v)`: an int is kept, a bool is 0 or 1, a float is
      truncated toward zero, a string is read as an integer numeral; every
      other value raises. */
  function ToInt(v: PyValue): (r: Result<int>)
    ensures v.PyInt? ==> r == Ok(v.i)
    ensures v.PyFloat? ==> r.Ok? && (v.x >= 0.0 ==> r.value == v.x.Floor) && (v.x < 0.0 ==> r.value == -((-v.x).Floor))
    ensures v.PyStr? ==> (r.Ok? <==> IntNumeral(v.s).Some?) && (r.Ok? ==> r.value == IntNumeral(v.s).value)
    ensures (v.PyNone? || v.PyList? || v.PyScaler?) ==> r == Err(InvalidNSteps)
  {
    match v
    case PyInt(i) => Ok(i)
    case PyBool(b) => Ok(if b then 1 else 0)
    case PyFloat(x) => Ok(if x >= 0.0 then x.Floor else -((-x).Floor))
    case PyStr(s) => if IntNumeral(s).Some? then Ok(IntNumeral(s).value) else Err(InvalidNSteps)
    case _ => Err(InvalidNSteps)
  }

  /** Python's `float(v)`; None when it raises. */
  function ToReal(v: PyValue): (r: Option<real>)
    ensures v.PyFloat? ==> r == Some(v.x)
    ensures v.PyInt? ==> r == Some(v.i as real)
    ensures v.PyStr? ==> r == RealNumeral(v.s)
    ensures (v.PyNone? || v.PyList? || v.PyScaler?) ==> r.None?
  {
    match v
    case PyInt(i) => Some(i as real)
    case PyBool(b) => Some(if b then 1.0 else 0.0)
    case PyFloat(x) => Some(x)
    case PyStr(s) => RealNumeral(s)
    case _ => None
  }

  /** `int(str(n))` and `float(str(n))` give n back for every integer n, so
      an `n_steps` or `y_mu` saved as text reads as the number. */
  lemma IntegerTextConverts(n: int)
    ensures ToInt(PyStr(IntStr(n))) == Ok(n)
    ensures ToReal(PyStr(IntStr(n))) == Some(n as real)
  {
    IntegerTextInt(n);
    IntegerTextReal(n);
  }

  lemma IntegerTextInt(n: int)
    ensures IntNumeral(IntStr(n)) == Some(n)
  {
    var m := if n < 0 then -n else n;
    NatStrValue(m);
    IntNumeralSign(if n < 0 then "-" else "", NatStr(m));
  }

  lemma IntegerTextReal(n: int)
    ensures RealNumeral(IntStr(n)) == Some(n as real)
  {
    var m := if n < 0 then -n else n;
    NatStrValue(m);
    UnsignedDigits(NatStr(m));
    assert IsDigit(NatStr(m)[0]);
    RealNumeralSign(if n < 0 then "-" else "", NatStr(m));
  }

  /** `int()` on a sign before digits. */
  lemma IntNumeralSign(sign: string, t: string)
    requires sign == "" || sign == "-" || sign == "+"
    requires t != [] && AllDigits(t)
    ensures IntNumeral(sign + t) == Some(if sign == "-" then -(DigitsValue(t) as int) else DigitsValue(t))
  {
    if sign == "" {
      assert sign + t == t && IsDigit(t[0]);
    } else {
      assert (sign + t)[0] == sign[0] && (sign + t)[1..] == t;
    }
  }

  /** `float()` on a sign before a numeral that starts with a digit. */
  lemma RealNumeralSign(sign: string, t: string)
    requires sign == "" || sign == "-" || sign == "+"
    requires t != [] && IsDigit(t[0])
    ensures RealNumeral(sign + t) ==
      match ParseUnsigned(t)
      case None => None
      case Some(x) => Some(if sign == "-" then -x else x)
  {
    if sign == "" {
      assert sign + t == t;
    } else {
      assert (sign + t)[0] == sign[0] && (sign + t)[1..] == t;
    }
  }

  /** A decimal numeral with a point: `float()` reads it as whole part plus
      fraction (with its sign), while `int()` raises on it. */
  lemma DecimalTextConverts(sign: string, a: string, b: string)
    requires sign == "" || sign == "-" || sign == "+"
    requires AllDigits(a) && AllDigits(b) && a != []
    ensures ToInt(PyStr(sign + (a + "." + b))).Err?
    ensures ToReal(PyStr(sign + (a + "." + b))) ==
      Some(if sign == "-" then -(DigitsValue(a) as real + Fraction(b)) else DigitsValue(a) as real + Fraction(b))
  {
    DecimalNotInteger(sign, a, b);
    DecimalReal(sign, a, b);
  }

  lemma DecimalNotInteger(sign: string, a: string, b: string)
    requires sign == "" || sign == "-" || sign == "+"
    requires AllDigits(a) && a != []
    ensures IntNumeral(sign + (a + "." + b)) == None
  {
    var s := sign + (a + "." + b);
    if sign == "" {
      assert s[0] == a[0] && s[|a|] == '.';
    } else {
      assert s[0] == sign[0] && s[1..][|a|] == '.';
    }
  }

  lemma DecimalReal(sign: string, a: string, b: string)
    requires sign == "" || sign == "-" || sign == "+"
    requires AllDigits(a) && AllDigits(b) && a != []
    ensures RealNumeral(sign + (a + "." + b)) ==
      Some(if sign == "-" then -(DigitsValue(a) as real + Fraction(b)) else DigitsValue(a) as real + Fraction(b))
  {
    var t := a + "." + b;
    UnsignedPoint(a, b);
    assert t[0] == a[0];
    RealNumeralSign(sign, t);
  }

  /** The feature order a bundle's `feature_cols` gives `_align_feature_order`:
      the list's names; None keeps the frame's own order. */
  function FeatureOrder(v: PyValue): (r: Option<seq<string>>)
    ensures r.Some? <==> v.PyList?
  {
    if v.PyList? then Some(v.names) else None
  }

  /** `_align_feature_order` can use the value: None or a list of names.
      Anything else (a string, a number, a scaler) makes it raise. */
  predicate OrderUsable(v: PyValue)
  {
    v.PyNone? || v.PyList?
  }

  /** The scaler, the `feature_cols` value and the lag depth
      `_pick_feature_scaler` settles on. */
  datatype Picked = Picked(scaler: PyValue, feats: PyValue, nsteps: int)

  /** `_pick_feature_scaler(obj)`. A bare scaler is used as it is, with no
      feature order and 6 lags. A dict gives the first truthy of `x_scaler`,
      `scaler`, `feature_scaler` (Python's `or`: when none is truthy, the
      last), its `feature_cols` and `int(n_steps)` with 6 as the default;
      `int` is applied before the scaler is checked, so a bad `n_steps`
      raises first. A dict whose chosen scaler is None raises, and so does
      any other artifact. */
  function PickFeatureScaler(obj: Artifact): (r: Result<Picked>)
    ensures obj.Transformer? ==> r == Ok(Picked(PyScaler(obj.scale), PyNone, 6))
    ensures obj.Unrecognised? ==> r == Err(UnknownScalerFormat)
    ensures r.Ok? ==> r.value.scaler != PyNone
    ensures r.Err? ==> r.error in {UnknownScalerFormat, ScalerMissingInDict, InvalidNSteps}
  {
    match obj
    case Transformer(scale) => Ok(Picked(PyScaler(scale), PyNone, 6))
    case Bundle(d) =>
      var sc := Or(Or(Get(d, "x_scaler", PyNone), Get(d, "scaler", PyNone)), Get(d, "feature_scaler", PyNone));
      var feats := Get(d, "feature_cols", PyNone);
      var nsteps := ToInt(Get(d, "n_steps", PyInt(6)));
      if nsteps.Err? then Err(nsteps.error)
      else if sc.PyNone? then Err(ScalerMissingInDict)
      else Ok(Picked(sc, feats, nsteps.value))
    case Unrecognised => Err(UnknownScalerFormat)
  }

  /** The scaler key `_pick_feature_scaler` settles on: the first of
      `x_scaler`, `scaler`, `feature_scaler` holding a truthy value. */
  predicate FirstTruthyKey(d: map<string, PyValue>, key: string)
  {
    && key in d && Truthy(d[key])
    && (key == "x_scaler"
        || (key == "scaler" && !Truthy(Get(d, "x_scaler", PyNone)))
        || (key == "feature_scaler" && !Truthy(Get(d, "x_scaler", PyNone)) && !Truthy(Get(d, "scaler", PyNone))))
  }

  /** A bundle's scaler is the first of the three keys that holds a truthy
      value; its feature order and lag depth are the bundle's own, 6 lags
      when it names none. */
  lemma PickFromBundle(d: map<string, PyValue>, key: string)
    requires FirstTruthyKey(d, key)
    requires "n_steps" !in d || d["n_steps"].PyInt?
    ensures var r := PickFeatureScaler(Bundle(d));
      && r.Ok?
      && r.value.scaler == d[key]
      && r.value.feats == (if "feature_cols" in d then d["feature_cols"] else PyNone)
      && r.value.nsteps == (if "n_steps" in d then d["n_steps"].i else 6)
  {
    var x, s, f := Get(d, "x_scaler", PyNone), Get(d, "scaler", PyNone), Get(d, "feature_scaler", PyNone);
    assert Truthy(Or(Or(x, s), f));
  }

  /** A bundle raises ScalerMissingInDict exactly when all three scaler
      keys are missing or falsy and the last is missing or None (with a
      valid `n_steps`). */
  lemma PickMissingScaler(d: map<string, PyValue>)
    requires "n_steps" !in d || d["n_steps"].PyInt?
    ensures PickFeatureScaler(Bundle(d)) == Err(ScalerMissingInDict)
      <==> (forall k :: k in ["x_scaler", "scaler"] ==> k !in d || !Truthy(d[k]))
           && ("feature_scaler" !in d || d["feature_scaler"] == PyNone)
  {
    var x, s, f := Get(d, "x_scaler", PyNone), Get(d, "scaler", PyNone), Get(d, "feature_scaler", PyNone);
    assert "x_scaler" in ["x_scaler", "scaler"] && "scaler" in ["x_scaler", "scaler"];
    if Truthy(x) || Truthy(s) {
      assert Or(Or(x, s), f) != PyNone;
    }
  }

  /** What `joblib.load` and `load_model` find at the two artifact paths;
      None where the file does not exist. */
  datatype Files = Files(network: Option<Network>, scalerArtifact: Option<Artifact>)

  /** The module globals of `utils/model_infer.py`. `yLog`, `yMu` and
      `ySd` are None until first assigned, as `'_Y_LOG' in globals()` is
      false until then. */
  class ArtifactCache {
    var network: Option<Network>      // _MODEL
    var scaler: Option<PyValue>       // _SCALER
    var feats: Option<PyValue>        // _FEATS
    var nsteps: Option<int>           // _NSTEPS
    var yLog: Option<bool>            // _Y_LOG
    var yMu: Option<real>             // _Y_MU
    var ySd: Option<real>             // _Y_SD

    /** The globals at import time. */
    constructor ()
      ensures network.None? && scaler.None? && feats.None? && nsteps.None?
      ensures yLog.None? && yMu.None? && ySd.None?
      ensures Valid()
    {
      network, scaler, feats, nsteps := None, None, None, None;
      yLog, yMu, ySd := None, None, None;
    }

    /** A cached scaler always comes with its lag depth, and is never None;
        the target's flag, mean and deviation are assigned together. */
    predicate Valid()
      reads this
    {
      && (scaler.Some? ==> !scaler.value.PyNone? && feats.Some? && nsteps.Some?)
      && (yLog.Some? ==> yMu.Some? && ySd.Some?)
    }

    /** Both artifacts are cached. */
    predicate Loaded()
      reads this
    {
      network.Some? && scaler.Some?
    }

    /** `_load_artifacts()`. The network is loaded only when none is
        cached, and a missing network file raises before anything else;
        the scaler is loaded only when none is cached. A bundle that is a
        mapping also sets the target's log flag, mean and deviation
        (defaults False, 0.0, 1.0), all three falling back to those
        defaults when a value does not convert. */
    method Load(files: Files) returns (r: Result<()>)
      requires Valid()
      modifies this
      ensures Valid()
      ensures old(network).Some? ==> network == old(network)
      ensures old(network).None? && files.network.None? ==> r == Err(ModelFileNotFound) && unchanged(this)
      ensures old(network).None? && files.network.Some? ==> network == files.network
      ensures old(scaler).Some? ==> scaler == old(scaler) && feats == old(feats) && nsteps == old(nsteps)
      ensures old(scaler).Some? ==> yLog == old(yLog) && yMu == old(yMu) && ySd == old(ySd)
      ensures old(scaler).None? && r.Ok? ==>
        && files.scalerArtifact.Some?
        && PickFeatureScaler(files.scalerArtifact.value).Ok?
        && var p := PickFeatureScaler(files.scalerArtifact.value).value;
           scaler == Some(p.scaler) && feats == Some(p.feats) && nsteps == Some(p.nsteps)
      ensures old(scaler).None? && r.Ok? && !files.scalerArtifact.value.Bundle? ==>
        yLog == old(yLog) && yMu == old(yMu) && ySd == old(ySd)
      ensures old(scaler).None? && r.Ok? && files.scalerArtifact.value.Bundle? ==>
        yLog.Some? && yMu.Some? && ySd.Some?
        && YFlags(files.scalerArtifact.value.entries) == (yLog.value, yMu.value, ySd.value)
      ensures r.Err? ==> scaler == old(scaler) && feats == old(feats) && nsteps == old(nsteps)
      ensures r.Err? ==> yLog == old(yLog) && yMu == old(yMu) && ySd == old(ySd)
      ensures old(Loaded()) ==> r.Ok? && unchanged(this)
      ensures r.Err? ==> r.error in {ModelFileNotFound, ScalerFileNotFound, ScalerMissingInDict, UnknownScalerFormat, InvalidNSteps}
      ensures r.Ok? <==> Loaded()
    {
      if network.None? {
        if files.network.None? {
          return Err(ModelFileNotFound);
        }
        network := files.network;
      }
      if scaler.None? {
        if files.scalerArtifact.None? {
          return Err(ScalerFileNotFound);
        }
        var raw := files.scalerArtifact.value;
        var picked := PickFeatureScaler(raw);
        if picked.Err? {
          return Err(picked.error);
        }
        scaler, feats, nsteps := Some(picked.value.scaler), Some(picked.value.feats), Some(picked.value.nsteps);
        if raw.Bundle? {
          var (l, mu, sd) := YFlags(raw.entries);
          yLog, yMu, ySd := Some(l), Some(mu), Some(sd);
        }
      }
      return Ok(());
    }
  }

  /** The target transform a bundle records: `bool(y_log)`, `float(y_mu)`
      and `float(y_sd)` with defaults False, 0.0 and 1.0; when either
      number does not convert, all three are the defaults. */
  function YFlags(d: map<string, PyValue>): (r: (bool, real, real))
    ensures "y_log" !in d && "y_mu" !in d && "y_sd" !in d ==> r == (false, 0.0, 1.0)
    ensures ToReal(Get(d, "y_mu", PyFloat(0.0))).None? || ToReal(Get(d, "y_sd", PyFloat(1.0))).None? ==> r == (false, 0.0, 1.0)
    ensures "y_mu" in d && d["y_mu"].PyFloat? && "y_sd" in d && d["y_sd"].PyFloat? ==>
      r == (Truthy(Get(d, "y_log", PyBool(false))), d["y_mu"].x, d["y_sd"].x)
  {
    var l := Truthy(Get(d, "y_log", PyBool(false)));
    var mu := ToReal(Get(d, "y_mu", PyFloat(0.0)));
    var sd := ToReal(Get(d, "y_sd", PyFloat(1.0)));
    if mu.Some? && sd.Some? then (l, mu.value, sd.value) else (false, 0.0, 1.0)
  }
}
