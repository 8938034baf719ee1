/**
 * The preprocessing layout of the customer models and the semantics of the
 * column transformer it configures, applied with parameters fitted earlier
 * (per-column mean and scale, per-feature category vocabulary).
 *
 * A configuration lists transformers in order; each applies one policy to the
 * columns it names, selected from the record by name. The output row is the
 * concatenation, transformer by transformer and column by column, of each
 * column's encoding. Fields that no transformer names are dropped.
 */
module Preprocessing {
  import opened Wrappers
  import opened Records

  /** How a transformer encodes each of its columns. */
  datatype Policy =
    | StandardScale        // (x - mean) / scale, with the fitted mean and scale
    | OneHotIgnoreUnknown  // indicator block over the fitted vocabulary; unknown value -> all zeros

  /** One named transformer and the columns it selects, in order. */
  datatype ColumnSpec = ColumnSpec(name: string, policy: Policy, columns: seq<string>)

  /** A column transformer whose remainder is dropped. */
  datatype Config = Config(transformers: seq<ColumnSpec>)

  /** The categorical policy: one-hot encoding that ignores unknown categories. */
  const CatPipeline: Policy := OneHotIgnoreUnknown

  /** The numeric policy: standardisation. */
  const NumPipeline: Policy := StandardScale

  const CategoricalNames: seq<string> :=
    ["hasCrCard", "isActiveMember", "gender", "geography", "isZeroBalance"]

  const NumericNames: seq<string> :=
    ["creditScore", "age", "tenure", "balance", "numofProducts", "estimatedSalary"]

  /** The preprocessing used by the customer models. */
  function BuildPreprocessing(): (c: Config)
    ensures Columns(c) == NumericNames + CategoricalNames
    ensures |c.transformers| == 2
    ensures c.transformers[0].name == "num" && c.transformers[1].name == "cat"
    ensures c.transformers[0].policy == StandardScale && c.transformers[0].columns == NumericNames
    ensures c.transformers[1].policy == OneHotIgnoreUnknown && c.transformers[1].columns == CategoricalNames
  {
    var c := Config([ColumnSpec("num", NumPipeline, NumericNames), ColumnSpec("cat", CatPipeline, CategoricalNames)]);
    assert c.transformers[1..] == [c.transformers[1]] && c.transformers[1..][1..] == [];
    assert ConcatColumns(c.transformers[1..]) == CategoricalNames + ConcatColumns([]);
    assert ConcatColumns([]) == [];
    c
  }

  /** All selected columns, in output order. */
  function Columns(c: Config): seq<string> {
    ConcatColumns(c.transformers)
  }

  function ConcatColumns(ts: seq<ColumnSpec>): seq<string> {
    if ts == [] then [] else ts[0].columns + ConcatColumns(ts[1..])
  }

  /** The fields a record must hold to be transformed. */
  function RequiredNames(c: Config): set<string> {
    set n | n in Columns(c)
  }

  // ---------------------------------------------------------------------------
  // Fitted parameters
  // ---------------------------------------------------------------------------

  /** The fitted parameters of one column. */
  datatype ColumnFit =
    | Scale(mean: real, scale: real)
    | Vocabulary(categories: seq<Scalar>)

  /** Fitted parameters, per transformer and per column, aligned with a configuration. */
  type Fitted = seq<seq<ColumnFit>>

  predicate Distinct<T(==)>(s: seq<T>) {
    forall i, j :: 0 <= i < j < |s| ==> s[i] != s[j]
  }

  /** A fitted scale is positive (a constant column is given scale 1); a vocabulary has no duplicates. */
  predicate ValidFit(f: ColumnFit) {
    match f
    case Scale(_, scale) => scale > 0.0
    case Vocabulary(cats) => Distinct(cats)
  }

  predicate ValidFits(fs: seq<ColumnFit>) {
    forall i :: 0 <= i < |fs| ==> ValidFit(fs[i])
  }

  predicate FitsPolicy(p: Policy, f: ColumnFit) {
    ValidFit(f) &&
    match p
    case StandardScale => f.Scale?
    case OneHotIgnoreUnknown => f.Vocabulary?
  }

  /** The fitted parameters have one entry per transformer and column, of that transformer's kind. */
  predicate FitsConfig(c: Config, fit: Fitted) {
    && |fit| == |c.transformers|
    && forall t :: 0 <= t < |fit| ==>
         && |fit[t]| == |c.transformers[t].columns|
         && forall k :: 0 <= k < |fit[t]| ==> FitsPolicy(c.transformers[t].policy, fit[t][k])
  }

  /** The column fits in output order. */
  function Flatten(fit: Fitted): seq<ColumnFit> {
    if fit == [] then [] else fit[0] + Flatten(fit[1..])
  }

  lemma {:induction false} FlattenMatchesColumns(c: Config, fit: Fitted)
    requires FitsConfig(c, fit)
    ensures |Flatten(fit)| == |Columns(c)| && ValidFits(Flatten(fit))
    ensures forall i :: 0 <= i < |Flatten(fit)| ==> (Flatten(fit)[i].Scale? <==> ColumnPolicies(c)[i] == StandardScale)
    decreases |fit|
  {
    if fit != [] {
      var rest := Config(c.transformers[1..]);
      assert FitsConfig(rest, fit[1..]) by {
        forall t | 0 <= t < |fit[1..]|
          ensures |fit[1..][t]| == |rest.transformers[t].columns|
        {
          assert fit[1..][t] == fit[t + 1];
        }
      }
      FlattenMatchesColumns(rest, fit[1..]);
      assert Flatten(fit) == fit[0] + Flatten(fit[1..]);
      assert Columns(c) == c.transformers[0].columns + Columns(rest);
      assert ColumnPolicies(c) == PolicyBlock(c.transformers[0]) + ColumnPolicies(rest);
      forall i | 0 <= i < |Flatten(fit)|
        ensures ValidFit(Flatten(fit)[i])
        ensures Flatten(fit)[i].Scale? <==> ColumnPolicies(c)[i] == StandardScale
      {
        if i < |fit[0]| {
          assert FitsPolicy(c.transformers[0].policy, fit[0][i]);
        } else {
          assert Flatten(fit)[i] == Flatten(fit[1..])[i - |fit[0]|];
        }
      }
    }
  }

  /** The policy applied to each selected column, in output order. */
  function ColumnPolicies(c: Config): (ps: seq<Policy>)
    ensures |ps| == |Columns(c)|
  {
    ConcatPolicies(c.transformers)
  }

  function PolicyBlock(t: ColumnSpec): seq<Policy> {
    seq(|t.columns|, _ => t.policy)
  }

  function ConcatPolicies(ts: seq<ColumnSpec>): (ps: seq<Policy>)
    ensures |ps| == |ConcatColumns(ts)|
  {
    if ts == [] then [] else PolicyBlock(ts[0]) + ConcatPolicies(ts[1..])
  }

  // ---------------------------------------------------------------------------
  // Encoding one column
  // ---------------------------------------------------------------------------

  datatype TransformError =
    | MissingColumns(missing: set<string>)  // required fields absent from the record
    | NotNumeric(column: string)            // a string where a standardised column needs a number
    | EmptyBatch                            // a batch of no records: the scaler and encoder need one sample at least

  /**
   * Standardisation by a fitted mean and scale. A valid fit's scale is positive
   * (see ValidFit); the guard only makes the division total.
   */
  function Standardize(x: real, mean: real, scale: real): (z: real)
    ensures scale != 0.0 ==> z * scale + mean == x
    ensures scale == 0.0 ==> z == x - mean
  {
    (x - mean) / (if scale == 0.0 then 1.0 else scale)
  }

  /** The position of v in a vocabulary, if any: the first one. */
  function IndexOf(cats: seq<Scalar>, v: Scalar): (r: Option<nat>)
    ensures r.None? <==> v !in cats
    ensures r.Some? ==> r.value < |cats| && cats[r.value] == v && v !in cats[..r.value]
  {
    if cats == [] then None
    else if cats[0] == v then Some(0)
    else
      match IndexOf(cats[1..], v)
      case None => None
      case Some(k) =>
        assert cats[..k + 1] == [cats[0]] + cats[1..][..k];
        Some(k + 1)
  }

  /** The indicator block of v: 1 at v's position in the vocabulary, 0 elsewhere. */
  function OneHot(cats: seq<Scalar>, v: Scalar): (r: seq<real>)
    ensures |r| == |cats|
    ensures forall i :: 0 <= i < |cats| ==> r[i] == (if IndexOf(cats, v) == Some(i) then 1.0 else 0.0)
  {
    var idx := IndexOf(cats, v);
    seq(|cats|, i => if idx == Some(i) then 1.0 else 0.0)
  }

  /** Under a duplicate-free vocabulary, a position holds 1 exactly when it is v's category, else 0. */
  lemma {:induction false} OneHotIndicator(cats: seq<Scalar>, v: Scalar, i: nat)
    requires Distinct(cats) && i < |cats|
    ensures OneHot(cats, v)[i] == 1.0 <==> cats[i] == v
    ensures OneHot(cats, v)[i] == 0.0 <==> cats[i] != v
  {
    var idx := IndexOf(cats, v);
    if cats[i] == v {
      assert idx.Some?;
      assert cats[idx.value] == cats[i];
    }
  }

  /** A known category gives exactly one 1, at its index, and 0 elsewhere. */
  lemma {:induction false} OneHotKnown(cats: seq<Scalar>, k: nat)
    requires Distinct(cats) && k < |cats|
    ensures OneHot(cats, cats[k])[k] == 1.0
    ensures forall i :: 0 <= i < |cats| && i != k ==> OneHot(cats, cats[k])[i] == 0.0
  {
    forall i | 0 <= i < |cats|
      ensures OneHot(cats, cats[k])[i] == if i == k then 1.0 else 0.0
    {
      OneHotIndicator(cats, cats[k], i);
    }
  }

  /** An unknown category gives an all-zero block (and no error). */
  lemma {:induction false} OneHotUnknown(cats: seq<Scalar>, v: Scalar)
    requires v !in cats
    ensures forall i :: 0 <= i < |cats| ==> OneHot(cats, v)[i] == 0.0
  {
  }

  /** The number of output columns a column contributes. */
  function Width(f: ColumnFit): nat {
    match f
    case Scale(_, _) => 1
    case Vocabulary(cats) => |cats|
  }

  /** The number of output columns the first i column fits contribute. */
  function WidthBefore(fs: seq<ColumnFit>, i: nat): nat
    requires i <= |fs|
  {
    if i == 0 then 0 else WidthBefore(fs, i - 1) + Width(fs[i - 1])
  }

  /** Whether a column can encode a value: only a standardised column rejects a string. */
  predicate Accepts(f: ColumnFit, v: Scalar) {
    !(f.Scale? && v.Str?)
  }

  /** The encoding of one cell. */
  function EncodeValue(f: ColumnFit, name: string, v: Scalar): (r: Result<seq<real>, TransformError>)
    ensures r.Success? <==> Accepts(f, v)
    ensures r.Success? ==> |r.value| == Width(f)
    ensures r.Failure? ==> r.error == NotNumeric(name)
  {
    match f
    case Scale(mean, scale) =>
      if v.Num? then Success([Standardize(v.x, mean, scale)]) else Failure(NotNumeric(name))
    case Vocabulary(cats) => Success(OneHot(cats, v))
  }

  /** A selected column: its name and its fitted parameters. */
  datatype Column = Column(name: string, fit: ColumnFit)

  /** The block of one selected column, read from the record by name. */
  function EncodeCell(col: Column, rec: Record): (r: Result<seq<real>, TransformError>)
    ensures r.Success? <==> col.name in rec && Accepts(col.fit, rec[col.name])
    ensures r.Success? ==> |r.value| == Width(col.fit)
  {
    if col.name !in rec then Failure(MissingColumns({col.name}))
    else EncodeValue(col.fit, col.name, rec[col.name])
  }

  /**
   * f applied to every element, in order, when it succeeds on all of them;
   * otherwise the error of the first element on which it fails.
   */
  function MapAll<A, B, E>(f: A -> Result<B, E>, xs: seq<A>): (r: Result<seq<B>, E>)
    ensures r.Success? <==> forall i :: 0 <= i < |xs| ==> f(xs[i]).Success?
    ensures r.Success? ==> |r.value| == |xs| && forall i :: 0 <= i < |xs| ==> r.value[i] == f(xs[i]).value
    ensures r.Failure? ==>
      exists i :: 0 <= i < |xs| && f(xs[i]) == Failure(r.error) && forall j :: 0 <= j < i ==> f(xs[j]).Success?
  {
    if xs == [] then Success([])
    else
      match f(xs[0])
      case Failure(e) => Failure(e)
      case Success(y) =>
        match MapAll(f, xs[1..])
        case Failure(e) =>
          ghost var i :| 0 <= i < |xs| - 1 && f(xs[1..][i]) == Failure(e)
                         && forall j :: 0 <= j < i ==> f(xs[1..][j]).Success?;
          assert forall j :: 1 <= j < |xs| ==> xs[j] == xs[1..][j - 1];
          assert f(xs[i + 1]) == Failure(e);
          Failure(e)
        case Success(ys) =>
          assert forall j :: 1 <= j < |xs| ==> xs[j] == xs[1..][j - 1];
          Success([y] + ys)
  }

  /** The blocks side by side, first block first. */
  function Concat(bs: seq<seq<real>>): seq<real> {
    if bs == [] then [] else Concat(bs[..|bs| - 1]) + bs[|bs| - 1]
  }

  /** The blocks of the selected columns. */
  function EncodeBlocks(cols: seq<Column>, rec: Record): Result<seq<seq<real>>, TransformError> {
    MapAll((col: Column) => EncodeCell(col, rec), cols)
  }

  /** The row of the selected columns: their blocks side by side; the first failing column is reported. */
  function EncodeColumns(cols: seq<Column>, rec: Record): (r: Result<seq<real>, TransformError>)
    ensures r.Success? <==> forall i :: 0 <= i < |cols| ==> cols[i].name in rec && Accepts(cols[i].fit, rec[cols[i].name])
    ensures r.Failure? ==>
      exists i :: 0 <= i < |cols| && EncodeCell(cols[i], rec) == Failure(r.error)
               && forall j :: 0 <= j < i ==> EncodeCell(cols[j], rec).Success?
  {
    match EncodeBlocks(cols, rec)
    case Failure(e) => Failure(e)
    case Success(bs) => Success(Concat(bs))
  }

  // ---------------------------------------------------------------------------
  // Transform
  // ---------------------------------------------------------------------------

  /** The selected columns of a configuration, paired with their fitted parameters. */
  function SelectedColumns(c: Config, fit: Fitted): (cols: seq<Column>)
    requires FitsConfig(c, fit)
    ensures |cols| == |Columns(c)| == |Flatten(fit)| && ValidFits(Flatten(fit))
    ensures forall i :: 0 <= i < |cols| ==> cols[i] == Column(Columns(c)[i], Flatten(fit)[i])
  {
    FlattenMatchesColumns(c, fit);
    seq(|Columns(c)|, i requires 0 <= i < |Columns(c)| => Column(Columns(c)[i], Flatten(fit)[i]))
  }

  /** The width of every transformed row. */
  function RowWidth(fit: Fitted): nat {
    WidthBefore(Flatten(fit), |Flatten(fit)|)
  }

  /**
   * The feature row of one record. Missing required fields are reported all
   * together before anything is encoded; then columns are encoded in output
   * order and the first one that rejects its value is reported.
   */
  function Transform(c: Config, fit: Fitted, rec: Record): (r: Result<seq<real>, TransformError>)
    requires FitsConfig(c, fit)
    ensures r.Failure? && r.error.MissingColumns? <==> !(RequiredNames(c) <= rec.Keys)
    ensures r.Failure? && r.error.MissingColumns? ==> r.error.missing == RequiredNames(c) - rec.Keys
    ensures r.Success? <==>
      && RequiredNames(c) <= rec.Keys
      && forall i :: 0 <= i < |Columns(c)| && ColumnPolicies(c)[i] == StandardScale ==> rec[Columns(c)[i]].Num?
    ensures r.Failure? && !r.error.MissingColumns? ==>
      exists i :: 0 <= i < |Columns(c)| && ColumnPolicies(c)[i] == StandardScale && rec[Columns(c)[i]].Str?
                  && r.error == NotNumeric(Columns(c)[i])
  {
    var missing := RequiredNames(c) - rec.Keys;
    if missing != {} then
      assert exists n :: n in RequiredNames(c) && n !in rec.Keys;
      Failure(MissingColumns(missing))
    else
      assert RequiredNames(c) <= rec.Keys by {
        forall n | n in RequiredNames(c) ensures n in rec.Keys {
          assert n !in missing;
        }
      }
      FlattenMatchesColumns(c, fit);
      assert forall i :: 0 <= i < |Columns(c)| ==> Columns(c)[i] in RequiredNames(c);
      EncodeColumns(SelectedColumns(c, fit), rec)
  }

  /**
   * One row per record, in order. A batch of no records is rejected; otherwise
   * the batch fails as a whole with the first failing record's error.
   */
  function TransformBatch(c: Config, fit: Fitted, rs: seq<Record>): (r: Result<seq<seq<real>>, TransformError>)
    requires FitsConfig(c, fit)
    ensures r.Success? <==> rs != [] && forall i :: 0 <= i < |rs| ==> Transform(c, fit, rs[i]).Success?
    ensures r.Success? ==> |r.value| == |rs|
    ensures r.Success? ==> forall i :: 0 <= i < |rs| ==> r.value[i] == Transform(c, fit, rs[i]).value
    ensures rs == [] ==> r == Failure(EmptyBatch)
    ensures r.Failure? && rs != [] ==>
      exists i :: 0 <= i < |rs| && Transform(c, fit, rs[i]) == Failure(r.error)
               && forall j :: 0 <= j < i ==> Transform(c, fit, rs[j]).Success?
  {
    if rs == [] then Failure(EmptyBatch)
    else MapAll((rec: Record) => Transform(c, fit, rec), rs)
  }

  /**
   * Transform, then predict: the classifier is applied to the whole
   * transformed batch; it is modelled as an opaque function of one row.
   */
  function Predict<L>(c: Config, fit: Fitted, classify: seq<real> -> L, rs: seq<Record>): (r: Result<seq<L>, TransformError>)
    requires FitsConfig(c, fit)
    ensures r.Success? <==> rs != [] && forall i :: 0 <= i < |rs| ==> Transform(c, fit, rs[i]).Success?
    ensures r.Success? ==> |r.value| == |rs|
    ensures r.Success? ==> forall i :: 0 <= i < |rs| ==> r.value[i] == classify(Transform(c, fit, rs[i]).value)
    ensures rs == [] ==> r == Failure(EmptyBatch)
    ensures r.Failure? ==> TransformBatch(c, fit, rs) == Failure(r.error)
  {
    match TransformBatch(c, fit, rs)
    case Failure(e) => Failure(e)
    case Success(rows) => Success(seq(|rows|, i requires 0 <= i < |rows| => classify(rows[i])))
  }
}
