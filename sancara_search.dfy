/**
 * The wrapper around the complex autoencoder used for sancara search:
 * checking the configuration, unpacking it into attributes, the input
 * size of the model, the sample rate of the CQT request and the windows
 * of frames fed to the model.
 *
 * The CQT computation, the per-window standardisation and the forward
 * pass of the network are parameters.
 */
module SancaraSearch {
  import opened Wrappers

  // ---------------------------------------------------------------------
  // Configuration values

  /** A value read from the configuration file. */
  datatype ConfValue =
    | Int(i: int)
    | Bool(b: bool)
    | Float(x: real)
    | Str(s: string)
    | Null
    | List(items: seq<ConfValue>)

  /** `isinstance(v, int)`: a bool is an int in Python. */
  predicate IsInt(v: ConfValue)
  {
    v.Int? || v.Bool?
  }

  /** `isinstance(v, float)`. */
  predicate IsFloat(v: ConfValue)
  {
    v.Float?
  }

  /** The integer value of an int (`True` is 1 and `False` is 0). */
  function IntOf(v: ConfValue): int
    requires IsInt(v)
  {
    if v.Int? then v.i else if v.b then 1 else 0
  }

  /** The keys `validate_conf` requires, in the order it checks them. */
  const RequiredKeys: seq<string> :=
    ["n_bins", "length_ngram", "n_bases", "dropout", "sr", "bins_per_oct", "fmin", "hop_length"]

  /** The type each required key must have: `dropout` a float, `fmin` a float or an int, the rest ints. */
  predicate TypeOk(key: string, v: ConfValue)
  {
    if key == "dropout" then IsFloat(v)
    else if key == "fmin" then IsFloat(v) || IsInt(v)
    else IsInt(v)
  }

  predicate AllPresent(conf: map<string, ConfValue>)
  {
    forall i :: 0 <= i < |RequiredKeys| ==> RequiredKeys[i] in conf
  }

  /** Every required key is present with the right type. */
  predicate ValidConf(conf: map<string, ConfValue>)
  {
    && AllPresent(conf)
    && forall i :: 0 <= i < |RequiredKeys| ==> TypeOk(RequiredKeys[i], conf[RequiredKeys[i]])
  }

  lemma RequiredKeyNames()
    ensures RequiredKeys[0] == "n_bins" && RequiredKeys[1] == "length_ngram" && RequiredKeys[2] == "n_bases"
    ensures RequiredKeys[3] == "dropout" && RequiredKeys[4] == "sr" && RequiredKeys[5] == "bins_per_oct"
    ensures RequiredKeys[6] == "fmin" && RequiredKeys[7] == "hop_length"
  {
  }

  /** `n_bins` of a valid configuration. */
  function NBins(conf: map<string, ConfValue>): int
    requires ValidConf(conf)
  {
    RequiredKeyNames();
    IntOf(conf["n_bins"])
  }

  /** `length_ngram` of a valid configuration. */
  function LengthNgram(conf: map<string, ConfValue>): int
    requires ValidConf(conf)
  {
    RequiredKeyNames();
    IntOf(conf["length_ngram"])
  }

  datatype ConfError = Missing(key: string) | WrongType(key: string)

  /** The first of `keys` missing from `conf`. */
  function FirstMissing(conf: map<string, ConfValue>, keys: seq<string>): (r: Option<nat>)
    ensures r.None? <==> forall i :: 0 <= i < |keys| ==> keys[i] in conf
    ensures r.Some? ==> r.value < |keys| && keys[r.value] !in conf && forall j :: 0 <= j < r.value ==> keys[j] in conf
  {
    if keys == [] then None
    else if keys[0] !in conf then Some(0)
    else match FirstMissing(conf, keys[1..])
      case None => None
      case Some(i) => Some(i + 1)
  }

  /** `validate_conf`: the presence loop, then the eight type checks in order; the first failure raises. */
  function ValidateConf(conf: map<string, ConfValue>): (r: Result<(), ConfError>)
    ensures r.Err? ==> r.error.key in RequiredKeys
  {
    match FirstMissing(conf, RequiredKeys)
    case Some(i) => Err(Missing(RequiredKeys[i]))
    case None =>
      RequiredKeyNames();
      if !IsInt(conf["n_bins"]) then Err(WrongType("n_bins"))
      else if !IsInt(conf["length_ngram"]) then Err(WrongType("length_ngram"))
      else if !IsInt(conf["n_bases"]) then Err(WrongType("n_bases"))
      else if !IsFloat(conf["dropout"]) then Err(WrongType("dropout"))
      else if !IsInt(conf["sr"]) then Err(WrongType("sr"))
      else if !IsInt(conf["bins_per_oct"]) then Err(WrongType("bins_per_oct"))
      else if !(IsFloat(conf["fmin"]) || IsInt(conf["fmin"])) then Err(WrongType("fmin"))
      else if !IsInt(conf["hop_length"]) then Err(WrongType("hop_length"))
      else Ok(())
  }

  /** The required key at position `i` is reported missing exactly when it is the first absent one; no type is checked before every key is present. */
  lemma ValidateConfMissing(conf: map<string, ConfValue>, i: nat)
    requires i < |RequiredKeys|
    ensures ValidateConf(conf) == Err(Missing(RequiredKeys[i])) <==>
      RequiredKeys[i] !in conf && forall j :: 0 <= j < i ==> RequiredKeys[j] in conf
  {
    var m := FirstMissing(conf, RequiredKeys);
    if m.Some? && m.value != i {
      RequiredKeysDistinct(m.value, i);
    }
  }

  /** The required key at position `i` is reported ill-typed exactly when every key is present and it is the first with the wrong type. */
  lemma ValidateConfWrongType(conf: map<string, ConfValue>, i: nat)
    requires i < |RequiredKeys|
    ensures ValidateConf(conf) == Err(WrongType(RequiredKeys[i])) <==>
      && AllPresent(conf)
      && !TypeOk(RequiredKeys[i], conf[RequiredKeys[i]])
      && forall j :: 0 <= j < i ==> TypeOk(RequiredKeys[j], conf[RequiredKeys[j]])
  {
    RequiredKeyNames();
    match i
    case 0 =>
    case 1 =>
    case 2 =>
    case 3 =>
    case 4 =>
    case 5 =>
    case 6 =>
    case 7 =>
  }

  /** The configuration is accepted exactly when every required key is present with its type. */
  lemma ValidateConfAccepts(conf: map<string, ConfValue>)
    ensures ValidateConf(conf).Ok? <==> ValidConf(conf)
  {
    RequiredKeyNames();
  }

  lemma RequiredKeysDistinct(i: nat, j: nat)
    requires i < j < |RequiredKeys| || j < i < |RequiredKeys|
    ensures RequiredKeys[i] != RequiredKeys[j]
  {
    RequiredKeyNames();
  }

  /** A configuration that is complete and well typed except for an integer `dropout` is refused for that key, while `True` is accepted as `n_bins`. */
  lemma ValidateConfExamples(conf: map<string, ConfValue>)
    requires ValidConf(conf)
    ensures ValidateConf(conf["dropout" := Int(1)]) == Err(WrongType("dropout"))
    ensures ValidateConf(conf["n_bins" := Bool(true)]) == Ok(())
    ensures ValidateConf(conf - {"sr"}) == Err(Missing("sr"))
  {
    RequiredKeyNames();
    var c := conf["dropout" := Int(1)];
    ValidateConfWrongType(c, 3);
    var d := conf["n_bins" := Bool(true)];
    ValidateConfAccepts(d);
    var e := conf - {"sr"};
    ValidateConfMissing(e, 4);
  }

  // ---------------------------------------------------------------------
  // The model

  /** The hyper-parameters `Complex` is built with; its weights come from disk and are not part of this model. */
  datatype ComplexModel = Complex(inSize: int, nBases: int, dropout: real)

  /** `load_model`: the input size is `n_bins * length_ngram`. */
  function ModelFor(params: map<string, ConfValue>): ComplexModel
    requires ValidConf(params)
  {
    RequiredKeyNames();
    Complex(NBins(params) * LengthNgram(params), IntOf(params["n_bases"]), params["dropout"].x)
  }

  /** What the CQT front end is asked for. */
  datatype CqtRequest = CqtRequest(
    audioPath: string,
    nBins: ConfValue,
    binsPerOct: ConfValue,
    fmin: ConfValue,
    hopLength: ConfValue,
    sr: ConfValue)

  /** `sr if sr else self.sr`: a missing or zero rate falls back to the configured one. */
  function SampleRate(sr: Option<int>, configured: ConfValue): (r: ConfValue)
    ensures r == configured <==> sr.None? || sr.value == 0 || configured == Int(sr.value)
    ensures sr.Some? && sr.value != 0 ==> r == Int(sr.value)
  {
    if sr.Some? && sr.value != 0 then Int(sr.value) else configured
  }

  // ---------------------------------------------------------------------
  // Windows of frames

  /** Python's index normalisation for a slice bound on a sequence of length `n`. */
  function SliceBound(i: int, n: nat): (b: nat)
    ensures b <= n
    ensures 0 <= i <= n ==> b == i
  {
    if i < 0 then (if i + n < 0 then 0 else i + n) else if i > n then n else i
  }

  /** `s[start:stop]`. */
  function PySlice<T>(s: seq<T>, start: int, stop: int): (r: seq<T>)
    ensures 0 <= start <= stop <= |s| ==> r == s[start..stop]
  {
    var lo, hi := SliceBound(start, |s|), SliceBound(stop, |s|);
    if lo < hi then s[lo..hi] else []
  }

  /** `reshape((-1,))` of a matrix: its rows one after the other. */
  function Flatten<T>(rows: seq<seq<T>>): seq<T>
  {
    if rows == [] then [] else rows[0] + Flatten(rows[1..])
  }

  predicate Rectangular<T>(rows: seq<seq<T>>, width: nat)
  {
    forall i :: 0 <= i < |rows| ==> |rows[i]| == width
  }

  /** `len(range(0, t - l))`. */
  function WindowCount(t: int, l: int): nat
  {
    if t - l > 0 then t - l else 0
  }

  /** The `i`-th window: `cqt[i:i + l].reshape((-1,))`. */
  function Window<T>(cqt: seq<seq<T>>, i: int, l: int): seq<T>
  {
    Flatten(PySlice(cqt, i, i + l))
  }

  /** The standardised windows, in increasing start order. */
  function Ngrams(cqt: seq<seq<real>>, l: int, standardize: seq<real> -> seq<real>): (r: seq<seq<real>>)
    ensures |r| == WindowCount(|cqt|, l)
    ensures forall i :: 0 <= i < |r| ==> r[i] == standardize(Window(cqt, i, l))
  {
    seq(WindowCount(|cqt|, l), i => standardize(Window(cqt, i, l)))
  }

  datatype StackError =
    | NoWindows      // `np.vstack([])` raises
    | RaggedWindows  // rows of different lengths cannot be stacked

  /** `np.vstack` of a list of vectors. */
  function Stack(rows: seq<seq<real>>): (r: Result<seq<seq<real>>, StackError>)
    ensures r == Err(NoWindows) <==> rows == []
    ensures r.Ok? <==> rows != [] && Rectangular(rows, |rows[0]|)
    ensures r.Ok? ==> r.value == rows
  {
    if rows == [] then Err(NoWindows)
    else if forall i :: 0 <= i < |rows| ==> |rows[i]| == |rows[0]| then Ok(rows)
    else Err(RaggedWindows)
  }

  /** The amplitude and phase the network returns. */
  datatype Features = Features(ampl: seq<seq<real>>, phase: seq<seq<real>>)

  /** What `to_amp_phase` returns for a frame matrix. */
  function AmpPhase(cqt: seq<seq<real>>, l: int, standardize: seq<real> -> seq<real>,
                    forward: (ComplexModel, seq<seq<real>>) -> Features, model: ComplexModel): Result<Features, StackError>
  {
    match Stack(Ngrams(cqt, l, standardize))
    case Err(e) => Err(e)
    case Ok(x) => Ok(forward(model, x))
  }

  /** Flattening a matrix of `width`-long rows gives `|rows| * width` values. */
  lemma {:induction false} FlattenLength<T>(rows: seq<seq<T>>, width: nat)
    requires Rectangular(rows, width)
    ensures |Flatten(rows)| == |rows| * width
  {
    if rows != [] {
      FlattenLength(rows[1..], width);
    }
  }

  /** Flattening is row-major: value `c` of row `r` lands at `r * width + c`. */
  lemma {:induction false} FlattenAt<T>(rows: seq<seq<T>>, width: nat, r: nat, c: nat)
    requires Rectangular(rows, width)
    requires r < |rows| && c < width
    ensures r * width + c < |Flatten(rows)|
    ensures Flatten(rows)[r * width + c] == rows[r][c]
  {
    FlattenLength(rows, width);
    if r > 0 {
      FlattenAt(rows[1..], width, r - 1, c);
      assert r * width + c == width + ((r - 1) * width + c);
    }
  }

  /** Window starts run from 0 up to `T - L - 1`: every window is the `L` rows from its start and ends before the last frame, so the full window that starts at `T - L` is never produced. */
  lemma WindowsAreRows<T>(cqt: seq<seq<T>>, l: nat, i: nat)
    requires i < WindowCount(|cqt|, l)
    ensures i + l < |cqt|
    ensures Window(cqt, i, l) == Flatten(cqt[i..i + l])
  {
  }

  /** With no more frames than the window length, stacking fails. */
  lemma TooFewFramesFails(cqt: seq<seq<real>>, l: int, standardize: seq<real> -> seq<real>,
                          forward: (ComplexModel, seq<seq<real>>) -> Features, model: ComplexModel)
    requires |cqt| <= l
    ensures AmpPhase(cqt, l, standardize, forward, model) == Err(NoWindows)
  {
    assert Ngrams(cqt, l, standardize) == [];
  }

  /** With more frames than the window length, a rectangular frame matrix and a length-preserving standardisation, the windows stack and the network sees `T - L` rows of `L * width` values. */
  lemma WindowsStack(cqt: seq<seq<real>>, width: nat, l: nat, standardize: seq<real> -> seq<real>,
                     forward: (ComplexModel, seq<seq<real>>) -> Features, model: ComplexModel)
    requires Rectangular(cqt, width) && l < |cqt|
    requires forall v :: |standardize(v)| == |v|
    ensures Stack(Ngrams(cqt, l, standardize)).Ok?
    ensures |Ngrams(cqt, l, standardize)| == |cqt| - l
    ensures Rectangular(Ngrams(cqt, l, standardize), l * width)
    ensures AmpPhase(cqt, l, standardize, forward, model) == Ok(forward(model, Ngrams(cqt, l, standardize)))
  {
    var ns := Ngrams(cqt, l, standardize);
    forall i | 0 <= i < |ns| ensures |ns[i]| == l * width {
      WindowsAreRows(cqt, l, i);
      assert Rectangular(cqt[i..i + l], width);
      FlattenLength(cqt[i..i + l], width);
    }
  }

  /** Each window has exactly the input size `load_model` gives the network when the frames are `n_bins` wide. */
  lemma WindowFitsModel(params: map<string, ConfValue>, cqt: seq<seq<real>>, i: nat)
    requires ValidConf(params)
    requires NBins(params) >= 0 && LengthNgram(params) >= 0
    requires Rectangular(cqt, NBins(params))
    requires i < WindowCount(|cqt|, LengthNgram(params))
    ensures |Window(cqt, i, LengthNgram(params))| == ModelFor(params).inSize
  {
    var l: nat := LengthNgram(params);
    var w: nat := NBins(params);
    WindowsAreRows(cqt, l, i);
    assert Rectangular(cqt[i..i + l], w);
    FlattenLength(cqt[i..i + l], w);
    assert l * w == w * l;
  }

  // ---------------------------------------------------------------------
  // The wrapper object

  class CaeWrapper {
    var confPath: string
    var modelPath: string
    var params: map<string, ConfValue>
    /** The attributes `setattr` creates, one per configuration key. */
    var attrs: map<string, ConfValue>
    var model: ComplexModel
    var cuda: bool

    ghost predicate Valid()
      reads this
    {
      && ValidConf(params)
      && attrs == params
      && model == ModelFor(params)
    }

    /** The construction after a successful `validate_conf`: every configuration key becomes an attribute, then the model is built. */
    constructor (modelPath: string, confPath: string, params: map<string, ConfValue>, cudaAvailable: bool)
      requires ValidConf(params)
      ensures Valid()
      ensures this.modelPath == modelPath && this.confPath == confPath && this.params == params
      ensures forall k :: k in params ==> k in attrs && attrs[k] == params[k]
      ensures model.inSize == NBins(params) * LengthNgram(params)
      ensures cuda == cudaAvailable
    {
      this.confPath := confPath;
      this.modelPath := modelPath;
      this.params := params;
      var unpacked: map<string, ConfValue> := map[];
      var remaining := params.Keys;
      while remaining != {}
        invariant remaining <= params.Keys
        invariant forall k :: k in unpacked <==> k in params && k !in remaining
        invariant forall k :: k in unpacked ==> unpacked[k] == params[k]
        decreases |remaining|
      {
        var k :| k in remaining;
        unpacked := unpacked[k := params[k]];
        remaining := remaining - {k};
      }
      assert unpacked == params;
      this.attrs := unpacked;
      this.model := ModelFor(params);
      this.cuda := cudaAvailable;
    }

    /** The CQT request `get_cqt` makes for a sample-rate argument. */
    function Request(audioPath: string, sr: Option<int>): CqtRequest
      reads this
      requires Valid()
    {
      RequiredKeyNames();
      CqtRequest(audioPath, attrs["n_bins"], attrs["bins_per_oct"], attrs["fmin"], attrs["hop_length"],
                 SampleRate(sr, attrs["sr"]))
    }

    /** The configured sample rate, `self.sr`. */
    function ConfiguredRate(): ConfValue
      reads this
      requires Valid()
    {
      RequiredKeyNames();
      attrs["sr"]
    }

    /** The window length, `self.length_ngram`. */
    function WindowLength(): int
      reads this
      requires Valid()
    {
      LengthNgram(attrs)
    }

    /** `get_cqt`; `toCqt` is the CQT front end followed by the transpose, giving one row per frame. */
    method GetCqt(audioPath: string, sr: Option<int>, toCqt: CqtRequest -> seq<seq<real>>) returns (frames: seq<seq<real>>)
      requires Valid()
      ensures frames == toCqt(Request(audioPath, sr))
      ensures Request(audioPath, sr).sr == if sr.Some? && sr.value != 0 then Int(sr.value) else ConfiguredRate()
    {
      frames := toCqt(Request(audioPath, sr));
    }

    /** `to_amp_phase`: collect the standardised windows, stack them and run the network. */
    method ToAmpPhase(cqt: seq<seq<real>>, standardize: seq<real> -> seq<real>,
                      forward: (ComplexModel, seq<seq<real>>) -> Features) returns (r: Result<Features, StackError>)
      requires Valid()
      ensures r == AmpPhase(cqt, WindowLength(), standardize, forward, model)
      ensures |cqt| <= WindowLength() ==> r == Err(NoWindows)
    {
      var l := WindowLength();
      var ngrams: seq<seq<real>> := [];
      var n := if |cqt| - l > 0 then |cqt| - l else 0;
      for i := 0 to n
        invariant |ngrams| == i
        invariant forall j :: 0 <= j < i ==> ngrams[j] == standardize(Window(cqt, j, l))
      {
        var window := Flatten(PySlice(cqt, i, i + l));
        ngrams := ngrams + [standardize(window)];
      }
      assert ngrams == Ngrams(cqt, l, standardize);
      var x := Stack(ngrams);
      if x.Err? {
        return Err(x.error);
      }
      r := Ok(forward(model, x.value));
    }

    /** `extract_features`: the `sr` argument is computed and then dropped, so the configured rate is always used. */
    method ExtractFeatures(audioPath: string, sr: Option<int>, toCqt: CqtRequest -> seq<seq<real>>,
                           standardize: seq<real> -> seq<real>,
                           forward: (ComplexModel, seq<seq<real>>) -> Features) returns (r: Result<Features, StackError>)
      requires Valid()
      ensures Request(audioPath, None).sr == ConfiguredRate()
      ensures r == AmpPhase(toCqt(Request(audioPath, None)), WindowLength(), standardize, forward, model)
    {
      RequiredKeyNames();
      var rate := if sr.Some? && sr.value != 0 then Int(sr.value) else attrs["sr"];
      var cqt := GetCqt(audioPath, None, toCqt);
      r := ToAmpPhase(cqt, standardize, forward);
    }
  }

  /** `CAEWrapper(...)`: a configuration that fails `validate_conf` raises before anything is built. */
  method NewCaeWrapper(modelPath: string, confPath: string, params: map<string, ConfValue>, cudaAvailable: bool)
    returns (r: Result<CaeWrapper, ConfError>)
    ensures r.Err? <==> ValidateConf(params).Err?
    ensures r.Err? ==> r.error == ValidateConf(params).error
    ensures r.Ok? ==> fresh(r.value) && r.value.Valid() && r.value.params == params && r.value.attrs == params
    ensures r.Ok? ==> r.value.modelPath == modelPath && r.value.confPath == confPath && r.value.cuda == cudaAvailable
  {
    var check := ValidateConf(params);
    if check.Err? {
      return Err(check.error);
    }
    var w := new CaeWrapper(modelPath, confPath, params, cudaAvailable);
    r := Ok(w);
  }
}
