/** Jensen-Shannon and Hellinger distances: both decide whether to treat a
    column as continuous or categorical, bin the reference into
    probabilities, align incoming data onto the same bins, pad both
    vectors with a leftover bin and hand them to a distance formula. */
module BinnedDistances {
  import opened Wrappers
  import opened Floats
  import opened Seqs
  import opened Base
  import opened Histograms
  import opened MethodBase

  datatype TreatAs = Cont | Cat

  /** The treat-as rule: a categorical dtype is categorical; otherwise a
      column with more than 50 distinct values, or whose distinct values
      exceed a tenth of its length, is continuous. */
  function TreatAsType(dtype: DType, values: seq<Value>): (r: Result<TreatAs>)
    ensures IsCategorical(dtype) ==> r == Ok(Cat)
    ensures !IsCategorical(dtype) && values == [] ==> r == Err(Raised("ZeroDivisionError"))
    ensures !IsCategorical(dtype) && values != [] ==> r.Ok?
    ensures r == Ok(Cont) <==>
      !IsCategorical(dtype) && (|Distinct(values)| > 50 || 10 * |Distinct(values)| > |values|)
  {
    if IsCategorical(dtype) then Ok(Cat)
    else
      var unique := |Distinct(values)|;
      var n := |values|;
      if unique > 50 then Ok(Cont)
      else if n == 0 then Err(Raised("ZeroDivisionError"))
      else if (FractionAboveTenth(unique, n); unique as real / n as real > 0.1) then Ok(Cont)
      else Ok(Cat)
  }

  /** The stored bins: histogram edges when continuous, the distinct
      reference values when categorical. */
  datatype Bins = Edges(edges: seq<real>) | Labels(labels: seq<Value>)

  /** What `_fit` leaves: the bins and the reference probability per bin. */
  datatype BinnedState = BinnedState(bins: Bins, refProba: seq<Float>)

  function BinCount(b: Bins): nat {
    match b
    case Edges(e) => NumBins(e)
    case Labels(l) => |l|
  }

  /** A fitted state as `_fit` produces it: sorted edges or distinct labels,
      and one reference probability per bin. */
  predicate Consistent(s: BinnedState) {
    |s.refProba| == BinCount(s.bins) &&
    match s.bins
    case Edges(e) => Sorted(e)
    case Labels(l) => NoDuplicates(l)
  }

  /** The continuous branch of `_fit`: Doane edges and the reference
      histogram over them, as fractions of the reference size. */
  function FitContinuous(values: seq<Value>, doane: seq<real> -> seq<real>): (r: Result<BinnedState>)
    requires values != []
    ensures r.Ok? <==> Numbers(values).Some? && Sorted(doane(Numbers(values).value))
    ensures r.Ok? ==> r.value.bins == Edges(doane(Numbers(values).value)) && Consistent(r.value)
    ensures r.Ok? ==> AllFinite(r.value.refProba)
    ensures r.Ok? ==> SumR(Reals(r.value.refProba)) <= 1.0
  {
    var numbers := Numbers(values);
    if numbers.None? then Err(Raised("TypeError"))
    else
      var xs := numbers.value;
      var e := doane(xs);
      var h :- NpHistogram(xs, e);
      assert forall i :: 0 <= i < |h| ==> h[i] <= |xs| by {
        forall i | 0 <= i < |h| ensures h[i] <= |xs| { ElementLeSum(h, i); }
      }
      ProportionsSum(h, |xs|);
      FractionAtMostOne(Sum(h), |xs|);
      Ok(BinnedState(Edges(e), Proportions(h, |xs|)))
  }

  /** The categorical branch of `_fit`: the distinct reference values and
      the fraction of the reference each one makes up. */
  function FitCategorical(values: seq<Value>): (r: BinnedState)
    ensures r.bins.Labels? && Consistent(r)
    ensures forall x :: x in r.bins.labels <==> x in values
    ensures forall i :: 0 <= i < |r.refProba| ==> r.refProba[i] == Ratio(Count(values, r.bins.labels[i]), |values|)
  {
    var labels := Distinct(values);
    var counts := CountsOf(values, labels);
    BinnedState(Labels(labels), Proportions(counts, |values|))
  }

  /** The reference probabilities of a non-empty column add up to 1. */
  lemma FitCategoricalSumsToOne(values: seq<Value>)
    requires values != []
    ensures AllFinite(FitCategorical(values).refProba)
    ensures SumR(Reals(FitCategorical(values).refProba)) == 1.0
  {
    var labels := Distinct(values);
    var counts := CountsOf(values, labels);
    var n := |values|;
    var S := set l | l in labels;
    assert forall x :: x in values ==> x in S;
    CountInAll(values, S);
    SumCountsOf(values, labels);
    assert Sum(counts) == n;
    ProportionsSum(counts, n);
    WholeFraction(n);
  }

  lemma CategoricalFitted(values: seq<Value>)
    ensures values != [] ==> AllFinite(FitCategorical(values).refProba)
    ensures values != [] ==> SumR(Reals(FitCategorical(values).refProba)) <= 1.0
  {
    if values != [] {
      FitCategoricalSumsToOne(values);
    }
  }

  /** `_fit` on a column without missing entries; `doane` gives NumPy's
      Doane bin edges of a sample. */
  function FitBinned(dtype: DType, values: seq<Value>, doane: seq<real> -> seq<real>): (r: Result<BinnedState>)
    ensures r.Ok? ==> Consistent(r.value)
    ensures r.Ok? ==> (r.value.bins.Edges? <==> TreatAsType(dtype, values) == Ok(Cont))
    ensures r.Err? <==>
      (TreatAsType(dtype, values).Err? ||
       (TreatAsType(dtype, values) == Ok(Cont) && (Numbers(values).None? || !Sorted(doane(Numbers(values).value)))))
    ensures r.Ok? && values != [] ==> AllFinite(r.value.refProba) && SumR(Reals(r.value.refProba)) <= 1.0
  {
    var treatAs :- TreatAsType(dtype, values);
    if treatAs == Cont then
      FitContinuous(values, doane)
    else
      CategoricalFitted(values);
      Ok(FitCategorical(values))
  }

  /** The incoming counts aligned on the reference bins: a histogram over
      the stored edges, or the count of each reference label (0 when
      absent). */
  function AlignedCounts(b: Bins, data: seq<Value>): (r: Result<seq<nat>>)
    ensures r.Ok? ==> |r.value| == BinCount(b)
    ensures r.Ok? ==> forall i :: 0 <= i < |r.value| ==> r.value[i] <= |data|
    ensures b.Labels? ==> r.Ok? && forall i :: 0 <= i < |b.labels| ==> r.value[i] == Count(data, b.labels[i])
    ensures b.Edges? ==> (r.Ok? <==> Numbers(data).Some? && Sorted(b.edges))
    ensures b.Edges? && r.Ok? ==> r.value == Histogram(Numbers(data).value, b.edges)
  {
    match b
    case Edges(e) =>
      var numbers := Numbers(data);
      if numbers.None? then Err(Raised("TypeError"))
      else
        var h :- NpHistogram(numbers.value, e);
        assert forall i :: 0 <= i < |h| ==> h[i] <= |data| by {
          forall i | 0 <= i < |h| ensures h[i] <= |data| { ElementLeSum(h, i); }
        }
        Ok(h)
    case Labels(l) => Ok(CountsOf(data, l))
  }

  /** The total of the aligned counts never exceeds the sample. */
  lemma AlignedCountsTotal(b: Bins, data: seq<Value>)
    requires b.Labels? ==> NoDuplicates(b.labels)
    requires AlignedCounts(b, data).Ok?
    ensures Sum(AlignedCounts(b, data).value) <= |data|
  {
    if b.Labels? {
      SumCountsOf(data, b.labels);
    }
  }

  /** The leftover step: when the data probabilities fall short of 1, the
      shortfall becomes an extra data bin and a copy of the reference
      vector gets a matching 0. */
  function Pad(refProba: seq<Float>, dataProba: seq<Float>): (r: (seq<Float>, seq<Float>))
    ensures var total := FloatSum(dataProba);
      if total.Finite? && 1.0 - total.v > 0.0
      then r == (refProba + [Finite(0.0)], dataProba + [Finite(1.0 - total.v)])
      else r == (refProba, dataProba)
  {
    var leftover := FloatSum(dataProba);
    if leftover.Finite? && 1.0 - leftover.v > 0.0 then
      (refProba + [Finite(0.0)], dataProba + [Finite(1.0 - leftover.v)])
    else (refProba, dataProba)
  }

  /** `_calculate` up to the distance formula: the reference and data
      vectors the formula receives. */
  function Vectors(s: BinnedState, data: seq<Value>): (r: Result<(seq<Float>, seq<Float>)>)
    ensures r.Err? <==> AlignedCounts(s.bins, data).Err?
  {
    var counts :- AlignedCounts(s.bins, data);
    Ok(Pad(s.refProba, Proportions(counts, |data|)))
  }

  /** After alignment and padding both vectors have one entry per bin, or
      one more each; the reference vector is the stored one, possibly
      with a trailing 0. */
  lemma VectorsShape(s: BinnedState, data: seq<Value>)
    requires Consistent(s)
    requires Vectors(s, data).Ok?
    ensures var (p, q) := Vectors(s, data).value;
      |p| == |q| &&
      (p == s.refProba || p == s.refProba + [Finite(0.0)]) &&
      (|q| == BinCount(s.bins) || |q| == BinCount(s.bins) + 1)
  {
  }

  /** Padding completes a NaN-free vector of probabilities whose total is
      at most 1 to a vector of probabilities whose total is exactly 1. */
  lemma PadCompletes(refProba: seq<Float>, proba: seq<Float>)
    requires AllFinite(proba) && forall i :: 0 <= i < |proba| ==> 0.0 <= proba[i].v <= 1.0
    requires SumR(Reals(proba)) <= 1.0
    ensures var q := Pad(refProba, proba).1;
      AllFinite(q) && SumR(Reals(q)) == 1.0 && forall i :: 0 <= i < |q| ==> 0.0 <= q[i].v <= 1.0
  {
    var total := SumR(Reals(proba));
    SumRNonNegative(Reals(proba));
    var q := Pad(refProba, proba).1;
    if 1.0 - total > 0.0 {
      assert q == proba + [Finite(1.0 - total)];
      assert Reals(q) == Reals(proba) + [1.0 - total];
      SumRAppend(Reals(proba), [1.0 - total]);
      assert SumR([1.0 - total]) == 1.0 - total;
    }
  }

  /** A non-empty sample gives a data vector of proportions in [0, 1]
      adding up to exactly 1, padding included. */
  lemma VectorsSumToOne(s: BinnedState, data: seq<Value>)
    requires Consistent(s)
    requires Vectors(s, data).Ok?
    requires data != []
    ensures var q := Vectors(s, data).value.1;
      AllFinite(q) && SumR(Reals(q)) == 1.0 && forall i :: 0 <= i < |q| ==> 0.0 <= q[i].v <= 1.0
  {
    var counts := AlignedCounts(s.bins, data).value;
    var proba := Proportions(counts, |data|);
    AlignedCountsTotal(s.bins, data);
    ProportionsSum(counts, |data|);
    FractionAtMostOne(Sum(counts), |data|);
    PadCompletes(s.refProba, proba);
  }

  /** An empty sample gives NaN in every bin and no padding. */
  lemma VectorsEmptySample(s: BinnedState, data: seq<Value>)
    requires Vectors(s, data).Ok?
    requires data == [] && BinCount(s.bins) > 0
    ensures var q := Vectors(s, data).value.1;
      |q| == BinCount(s.bins) && forall i :: 0 <= i < |q| ==> q[i].NaN?
  {
    var counts := AlignedCounts(s.bins, data).value;
    var proba := Proportions(counts, |data|);
    assert !AllFinite(proba) by {
      assert proba[0] == Ratio(counts[0], 0);
    }
  }

  /** The Jensen-Shannon distance of a fitted state and a sample, with
      SciPy's base-2 `jensenshannon` as the formula. */
  function JensenShannonOf(s: BinnedState, data: seq<Value>, formula: (seq<Float>, seq<Float>) -> Float): (r: Result<Float>)
    ensures r.Err? <==> Vectors(s, data).Err?
    ensures r.Ok? ==> r.value == formula(Vectors(s, data).value.0, Vectors(s, data).value.1)
  {
    var (p, q) :- Vectors(s, data);
    Ok(formula(p, q))
  }

  /** np.sqrt(2) as a double. */
  const SqrtTwo: real := 1.4142135623730951

  function SquaredRootGaps(p: seq<real>, q: seq<real>, sqrt: real -> real): (r: seq<real>)
    requires |p| == |q|
    ensures |r| == |p|
    ensures forall i :: 0 <= i < |p| ==> r[i] >= 0.0
  {
    seq(|p|, i requires 0 <= i < |p| => (sqrt(p[i]) - sqrt(q[i])) * (sqrt(p[i]) - sqrt(q[i])))
  }

  /** The Hellinger formula on two vectors of equal length: NaN when
      either holds NaN. `sqrt` is NumPy's square root. */
  function HellingerFormula(p: seq<Float>, q: seq<Float>, sqrt: real -> real): (r: Float)
    requires |p| == |q|
    ensures r.NaN? <==> !AllFinite(p) || !AllFinite(q)
  {
    if AllFinite(p) && AllFinite(q) then
      Finite(sqrt(SumR(SquaredRootGaps(Reals(p), Reals(q), sqrt))) / SqrtTwo)
    else NaN
  }

  /** Identical vectors are at Hellinger distance 0 whenever sqrt(0) is 0;
      and the distance is never negative when sqrt never is. */
  lemma HellingerFormulaSpec(p: seq<Float>, q: seq<Float>, sqrt: real -> real)
    requires |p| == |q| && AllFinite(p) && AllFinite(q)
    ensures p == q && sqrt(0.0) == 0.0 ==> HellingerFormula(p, q, sqrt) == Finite(0.0)
    ensures sqrt(SumR(SquaredRootGaps(Reals(p), Reals(q), sqrt))) >= 0.0 ==>
      HellingerFormula(p, q, sqrt).v >= 0.0
  {
    if p == q {
      var gaps := SquaredRootGaps(Reals(p), Reals(q), sqrt);
      assert gaps == ZerosR(|p|);
    }
  }

  /** The Hellinger distance of a fitted state and a sample. */
  function HellingerOf(s: BinnedState, data: seq<Value>, sqrt: real -> real): (r: Result<Float>)
    requires Consistent(s)
    ensures r.Err? <==> Vectors(s, data).Err?
    ensures r.Ok? ==> var (p, q) := Vectors(s, data).value;
      |p| == |q| && r.value == HellingerFormula(p, q, sqrt)
  {
    var v :- Vectors(s, data);
    VectorsShape(s, data);
    Ok(HellingerFormula(v.0, v.1, sqrt))
  }

  /** `JensenShannonDistance`. Its `_fit` and `_calculate` work on the
      column as given, without stripping missing values. */
  class JensenShannonDistance {
    const info: MethodInfo
    const threshold: ThresholdFn
    const doane: seq<real> -> seq<real>
    const jensenshannon: (seq<Float>, seq<Float>) -> Float
    var band: Band
    var state: Option<BinnedState>

    ghost predicate Valid()
      reads this
    {
      info == InfoOf(JensenShannon) && (state.Some? ==> Consistent(state.value))
    }

    constructor (threshold: ThresholdFn, doane: seq<real> -> seq<real>, jensenshannon: (seq<Float>, seq<Float>) -> Float)
      ensures Valid()
      ensures band == NoBand && state == None
      ensures this.threshold == threshold && this.doane == doane && this.jensenshannon == jensenshannon
    {
      info := InfoOf(JensenShannon);
      this.threshold := threshold;
      this.doane := doane;
      this.jensenshannon := jensenshannon;
      band := NoBand;
      state := None;
    }

    /** `_calculate` against a given fitted state. */
    function Distance(s: BinnedState, data: seq<Value>): (r: Result<Float>)
      ensures r.Err? <==> Vectors(s, data).Err?
    {
      JensenShannonOf(s, data, jensenshannon)
    }

    function ChunkDistances(s: BinnedState, chunks: seq<seq<Value>>): Result<seq<Float>> {
      ChunkResults((d: seq<Value>) => Distance(s, d), chunks)
    }

    /** `fit`: `_fit`, then the thresholds from the distances of the
        reference chunks. */
    method Fit(dtype: DType, reference: seq<Value>, chunks: seq<seq<Value>>) returns (o: Outcome)
      requires Valid()
      modifies this
      ensures Valid()
      ensures var f := FitBinned(dtype, reference, doane);
        f.Err? ==> o == Fail(f.error) && state == old(state) && band == old(band)
      ensures var f := FitBinned(dtype, reference, doane);
        f.Ok? ==>
          (state == Some(f.value) &&
           var rs := ChunkDistances(f.value, chunks);
           (rs.Err? ==> o == Fail(rs.error) && band == old(band)) &&
           (rs.Ok? ==> o == Pass && band == threshold(rs.value, info.lowerLimit, info.upperLimit)))
    {
      var f := FitBinned(dtype, reference, doane);
      if f.Err? {
        return Fail(f.error);
      }
      state := Some(f.value);
      var rs := ChunkDistances(f.value, chunks);
      if rs.Err? {
        return Fail(rs.error);
      }
      band := threshold(rs.value, info.lowerLimit, info.upperLimit);
      o := Pass;
    }

    /** `calculate`: AttributeError before `fit`, the distance after. */
    function Calculate(data: seq<Value>): (r: Result<Float>)
      reads this
      ensures state.None? ==> r == Err(Raised("AttributeError"))
      ensures state.Some? ==> r == Distance(state.value, data)
    {
      if state.None? then Err(Raised("AttributeError")) else Distance(state.value, data)
    }

    predicate Alert(v: Float)
      reads this
    {
      BandAlert(band, v)
    }
  }

  /** `HellingerDistance`: like Jensen-Shannon, but missing values are
      stripped first and the formula is the Hellinger one. */
  class HellingerDistance {
    const info: MethodInfo
    const threshold: ThresholdFn
    const doane: seq<real> -> seq<real>
    const sqrt: real -> real
    var band: Band
    var state: Option<BinnedState>

    ghost predicate Valid()
      reads this
    {
      info == InfoOf(Hellinger) && (state.Some? ==> Consistent(state.value))
    }

    constructor (threshold: ThresholdFn, doane: seq<real> -> seq<real>, sqrt: real -> real)
      ensures Valid()
      ensures band == NoBand && state == None
      ensures this.threshold == threshold && this.doane == doane && this.sqrt == sqrt
    {
      info := InfoOf(Hellinger);
      this.threshold := threshold;
      this.doane := doane;
      this.sqrt := sqrt;
      band := NoBand;
      state := None;
    }

    /** `_calculate` against a given fitted state. */
    function Distance(s: BinnedState, data: seq<Cell<Value>>): (r: Result<Float>)
      requires Consistent(s)
      ensures r.Err? <==> Vectors(s, RemoveMissing(data)).Err?
    {
      HellingerOf(s, RemoveMissing(data), sqrt)
    }

    function ChunkDistances(s: BinnedState, chunks: seq<seq<Cell<Value>>>): Result<seq<Float>>
      requires Consistent(s)
    {
      ChunkResults((d: seq<Cell<Value>>) => Distance(s, d), chunks)
    }

    method Fit(reference: Series<Value>, chunks: seq<seq<Cell<Value>>>) returns (o: Outcome)
      requires Valid()
      modifies this
      ensures Valid()
      ensures var f := FitBinned(reference.dtype, RemoveMissing(reference.cells), doane);
        f.Err? ==> o == Fail(f.error) && state == old(state) && band == old(band)
      ensures var f := FitBinned(reference.dtype, RemoveMissing(reference.cells), doane);
        f.Ok? ==>
          (state == Some(f.value) &&
           var rs := ChunkDistances(f.value, chunks);
           (rs.Err? ==> o == Fail(rs.error) && band == old(band)) &&
           (rs.Ok? ==> o == Pass && band == threshold(rs.value, info.lowerLimit, info.upperLimit)))
    {
      var f := FitBinned(reference.dtype, RemoveMissing(reference.cells), doane);
      if f.Err? {
        return Fail(f.error);
      }
      state := Some(f.value);
      var rs := ChunkDistances(f.value, chunks);
      if rs.Err? {
        return Fail(rs.error);
      }
      band := threshold(rs.value, info.lowerLimit, info.upperLimit);
      o := Pass;
    }

    function Calculate(data: seq<Cell<Value>>): (r: Result<Float>)
      reads this
      requires Valid()
      ensures state.None? ==> r == Err(Raised("AttributeError"))
      ensures state.Some? ==> r == Distance(state.value, data)
    {
      if state.None? then Err(Raised("AttributeError")) else Distance(state.value, data)
    }

    predicate Alert(v: Float)
      reads this
    {
      BandAlert(band, v)
    }
  }
}
