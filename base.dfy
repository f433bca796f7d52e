/** Helpers shared by the calculators and drift methods: missing-value
    stripping, dtype classification, required-column and negative-value
    checks, the calculators' exception policy and the normalisation of
    the `metrics` argument of result filtering. */
module Base {
  import opened Wrappers
  import opened Floats
  import opened Seqs

  /** One entry of a column: missing (None or NaN) or a present value. */
  datatype Cell<+T> = NA | Val(v: T)

  /** A scalar of a data frame: a number, or a label of a categorical column. */
  datatype Value = Number(x: real) | Label(s: string)

  /** A dtype, by the name pandas compares it against. */
  datatype DType = DType(name: string)

  /** A column: its dtype and its entries. */
  datatype Series<+T> = Series(dtype: DType, cells: seq<Cell<T>>)

  /** The numbers of a column of numbers, or None when some entry is a label. */
  function Numbers(values: seq<Value>): (r: Option<seq<real>>)
    ensures r.Some? <==> forall i :: 0 <= i < |values| ==> values[i].Number?
    ensures r.Some? ==> |r.value| == |values|
    ensures r.Some? ==> forall i :: 0 <= i < |values| ==> r.value[i] == values[i].x
  {
    if forall i :: 0 <= i < |values| ==> values[i].Number? then
      Some(seq(|values|, i requires 0 <= i < |values| => values[i].x))
    else None
  }

  const CategoricalDTypes: seq<string> := ["object", "string", "category", "bool"]

  const ContinuousDTypes: seq<string> :=
    ["int_", "int8", "int16", "int32", "int64", "uint8", "uint16", "uint32", "uint64",
     "float_", "float16", "float32", "float64"]

  predicate IsCategorical(d: DType) {
    d.name in CategoricalDTypes
  }

  predicate IsContinuous(d: DType) {
    d.name in ContinuousDTypes
  }

  /** No dtype is both categorical and continuous. */
  lemma CategoricalNotContinuous(d: DType)
    ensures !(IsCategorical(d) && IsContinuous(d))
  {
  }

  function CountMissing<T>(cells: seq<Cell<T>>): (r: nat)
    ensures r <= |cells|
  {
    if cells == [] then 0
    else CountMissing(cells[..|cells| - 1]) + (if cells[|cells| - 1].NA? then 1 else 0)
  }

  /** The present values of a column, in their original order. */
  function RemoveMissing<T>(cells: seq<Cell<T>>): (r: seq<T>)
    ensures |r| + CountMissing(cells) == |cells|
  {
    if cells == [] then []
    else
      var last := cells[|cells| - 1];
      RemoveMissing(cells[..|cells| - 1]) + (if last.Val? then [last.v] else [])
  }

  /** Stripping distributes over concatenation: together with the one-cell
      cases this pins the result down as the order-preserving filter. */
  lemma {:induction false} RemoveMissingAppend<T>(a: seq<Cell<T>>, b: seq<Cell<T>>)
    ensures RemoveMissing(a + b) == RemoveMissing(a) + RemoveMissing(b)
    decreases |b|
  {
    if b == [] {
      assert a + b == a;
    } else {
      assert (a + b)[..|a + b| - 1] == a + b[..|b| - 1];
      RemoveMissingAppend(a, b[..|b| - 1]);
    }
  }

  lemma RemoveMissingSingle<T>(c: Cell<T>)
    ensures RemoveMissing([c]) == (if c.Val? then [c.v] else [])
  {
    assert [c][..0] == [];
  }

  /** x survives stripping iff it is present in the column. */
  lemma {:induction false} RemoveMissingMembers<T>(cells: seq<Cell<T>>, x: T)
    ensures x in RemoveMissing(cells) <==> Val(x) in cells
    decreases |cells|
  {
    if cells != [] {
      var front := cells[..|cells| - 1];
      RemoveMissingMembers(front, x);
      assert Val(x) in cells <==> Val(x) in front || cells[|cells| - 1] == Val(x);
    }
  }

  /** A column without missing entries comes back whole. */
  lemma {:induction false} RemoveMissingNoMissing<T>(cells: seq<Cell<T>>)
    requires forall i :: 0 <= i < |cells| ==> cells[i].Val?
    ensures |RemoveMissing(cells)| == |cells|
    ensures forall i :: 0 <= i < |cells| ==> RemoveMissing(cells)[i] == cells[i].v
    decreases |cells|
  {
    if cells != [] {
      RemoveMissingNoMissing(cells[..|cells| - 1]);
    }
  }

  predicate HasDType(dtypes: map<string, DType>, n: string, kind: DType -> bool) {
    n in dtypes && kind(dtypes[n])
  }

  /** The continuous and the categorical names among `names`, each in the
      order given. Every name must be a column of the frame (`data[col]`). */
  function SplitFeaturesByType(dtypes: map<string, DType>, names: seq<string>)
    : (r: (seq<string>, seq<string>))
    requires forall n :: n in names ==> n in dtypes
    ensures IsSubsequence(r.0, names) && IsSubsequence(r.1, names)
    ensures forall n :: n in r.0 <==> n in names && IsContinuous(dtypes[n])
    ensures forall n :: n in r.1 <==> n in names && IsCategorical(dtypes[n])
    ensures forall n :: !(n in r.0 && n in r.1)
  {
    var isCont := (n: string) => HasDType(dtypes, n, IsContinuous);
    var isCat := (n: string) => HasDType(dtypes, n, IsCategorical);
    var cont := Filter(names, isCont);
    var cat := Filter(names, isCat);
    FilterIsSubsequence(names, isCont);
    FilterIsSubsequence(names, isCat);
    assert forall n :: n in cont <==> n in names && IsContinuous(dtypes[n]);
    assert forall n :: n in cat <==> n in names && IsCategorical(dtypes[n]);
    assert forall n :: !(n in cont && n in cat) by {
      forall n | n in cont && n in cat {
        CategoricalNotContinuous(dtypes[n]);
      }
    }
    (cont, cat)
  }

  /** The requested columns that the data set lacks, in request order. */
  function MissingColumns(toFind: seq<string>, columns: seq<string>): (r: seq<string>)
    ensures forall c :: c in r <==> c in toFind && c !in columns
  {
    Filter(toFind, c => c !in columns)
  }

  /** Fails with InvalidArguments exactly when a requested column is absent. */
  function ListMissing(toFind: seq<string>, columns: seq<string>): (o: Outcome)
    ensures o.Fail? <==> exists c :: c in toFind && c !in columns
    ensures o.Fail? ==> o.error.InvalidArguments?
  {
    var missing := MissingColumns(toFind, columns);
    if missing != [] then
      assert missing[0] in missing;
      Fail(InvalidArguments("missing required columns in data set"))
    else Pass
  }

  /** The positions of the negative values, in increasing order. */
  function NegativeIndices(values: seq<Float>): (r: seq<nat>)
    ensures forall i: nat :: i in r <==> i < |values| && Below(values[i], 0.0)
    ensures forall k :: 0 <= k < |r| - 1 ==> r[k] < r[k + 1]
    ensures forall k :: 0 <= k < |r| ==> r[k] < |values|
  {
    if values == [] then []
    else
      var n := |values| - 1;
      NegativeIndices(values[..n]) + (if Below(values[n], 0.0) then [n] else [])
  }

  /** Fails with InvalidArguments exactly when some value is negative (NaN is not). */
  function RaiseForNegativeValues(values: seq<Float>): (o: Outcome)
    ensures o.Fail? <==> exists i :: 0 <= i < |values| && Below(values[i], 0.0)
    ensures o.Fail? ==> o.error.InvalidArguments?
  {
    var negatives := NegativeIndices(values);
    if negatives != [] then
      assert negatives[0] in negatives;
      Fail(InvalidArguments("target values contain negative values"))
    else Pass
  }

  function Describe(e: Error): string {
    match e
    case InvalidArguments(m) => m
    case InvalidReferenceData(m) => m
    case NotFitted(m) => m
    case CalculatorNotFitted(m) => m
    case CalculatorError(m) => m
    case Raised(n) => n
    case Foreign(m) => m
  }

  /** The errors `fit` lets through unchanged. */
  predicate FitPassesThrough(e: Error) {
    e.InvalidArguments? || e.InvalidReferenceData?
  }

  /** The errors `calculate` lets through unchanged. */
  predicate CalculatePassesThrough(e: Error) {
    e.InvalidArguments? || e.CalculatorNotFitted?
  }

  /** The exception policy of a calculator's `fit` around its `_fit`. */
  function FitPolicy<T>(r: Result<T>, calculator: string): (w: Result<T>)
    ensures r.Ok? ==> w == r
    ensures r.Err? && FitPassesThrough(r.error) ==> w == r
    ensures r.Err? && !FitPassesThrough(r.error) ==>
      w == Err(CalculatorError("failed while fitting " + calculator + ".\n" + Describe(r.error)))
  {
    match r
    case Ok(_) => r
    case Err(e) =>
      if FitPassesThrough(e) then r
      else Err(CalculatorError("failed while fitting " + calculator + ".\n" + Describe(e)))
  }

  /** The exception policy of a calculator's `calculate` around its `_calculate`. */
  function CalculatePolicy<T>(r: Result<T>, calculator: string): (w: Result<T>)
    ensures r.Ok? ==> w == r
    ensures r.Err? && CalculatePassesThrough(r.error) ==> w == r
    ensures r.Err? && !CalculatePassesThrough(r.error) ==>
      w == Err(CalculatorError("failed while calculating " + calculator + ".\n" + Describe(r.error)))
  {
    match r
    case Ok(_) => r
    case Err(e) =>
      if CalculatePassesThrough(e) then r
      else Err(CalculatorError("failed while calculating " + calculator + ".\n" + Describe(e)))
  }

  /** Only three kinds of error ever leave `fit`, and applying the policy
      twice changes no error kind. */
  lemma FitPolicyEscapes<T>(r: Result<T>, calculator: string)
    ensures var w := FitPolicy(r, calculator);
      w.Err? ==> w.error.InvalidArguments? || w.error.InvalidReferenceData? || w.error.CalculatorError?
    ensures var w := FitPolicy(r, calculator);
      FitPolicy(w, calculator).Ok? == w.Ok? &&
      (w.Err? ==> FitPolicy(w, calculator).error.CalculatorError? == w.error.CalculatorError?)
  {
  }

  /** Only three kinds of error ever leave `calculate`. */
  lemma CalculatePolicyEscapes<T>(r: Result<T>, calculator: string)
    ensures var w := CalculatePolicy(r, calculator);
      w.Err? ==> w.error.InvalidArguments? || w.error.CalculatorNotFitted? || w.error.CalculatorError?
  {
  }

  /** The `metrics` argument of `filter`: None, a string, a list of strings,
      or any other Python object, which is truthy or falsy. */
  datatype MetricsArg =
    | NoMetrics
    | MetricName(name: string)
    | MetricNames(names: seq<string>)
    | OtherObject(truthy: bool)

  /** `filter`'s argument handling before it delegates to `_filter`. */
  function NormaliseMetrics(m: MetricsArg): (r: Result<MetricsArg>)
    ensures r.Err? <==> m.OtherObject? && m.truthy
    ensures r.Err? ==> r.error.InvalidArguments?
    ensures r.Ok? ==> !r.value.MetricName?
    ensures m.MetricName? ==> r == Ok(MetricNames([m.name]))
    ensures !m.MetricName? && r.Ok? ==> r.value == m
  {
    match m
    case OtherObject(truthy) =>
      if truthy then Err(InvalidArguments("metrics value provided is not a valid metric or list of metrics"))
      else Ok(m)
    case MetricName(name) => Ok(MetricNames([name]))
    case _ => Ok(m)
  }

  /** Normalising an already normalised argument changes nothing. */
  lemma NormaliseMetricsIdempotent(m: MetricsArg)
    requires NormaliseMetrics(m).Ok?
    ensures NormaliseMetrics(NormaliseMetrics(m).value) == NormaliseMetrics(m)
  {
  }
}
