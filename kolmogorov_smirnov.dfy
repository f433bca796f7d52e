/** The Kolmogorov-Smirnov statistic: the raw reference sample for SciPy's
    two-sample test in exact mode, or cumulative relative frequencies over
    an evenly spaced edge grid in estimated mode. */
module KolmogorovSmirnov {
  import opened Wrappers
  import opened Floats
  import opened Seqs
  import opened Base
  import opened Histograms
  import opened MethodBase
  import opened Settings

  /** What `_fit` leaves: the reference size, and either the raw sample
      (exact) or the edges and the cumulative reference frequencies
      (estimated). */
  datatype KsState = KsState(
    referenceSize: nat,
    sample: Option<seq<real>>,
    edges: seq<real>,
    refCumFreqs: Option<seq<real>>)

  predicate Probabilities(s: seq<real>) {
    forall i :: 0 <= i < |s| ==> 0.0 <= s[i] <= 1.0
  }

  /** A state `_fit` can produce: cumulative frequencies, when present,
      are probabilities with one per bin of sorted edges. */
  predicate Consistent(s: KsState) {
    s.refCumFreqs.Some? ==>
      Sorted(s.edges) && |s.refCumFreqs.value| == NumBins(s.edges) && Probabilities(s.refCumFreqs.value)
  }

  /** `np.cumsum(h / n)`. */
  function CumFreqs(h: seq<nat>, n: nat): (r: seq<real>)
    requires n > 0
    ensures |r| == |h|
  {
    CumSum(Scale(h, n))
  }

  /** Entry i is the fraction of the sample counted in bins 0 to i. */
  lemma CumFreqsAt(h: seq<nat>, n: nat, i: nat)
    requires n > 0 && i < |h|
    ensures CumFreqs(h, n)[i] == Sum(h[..i + 1]) as real / n as real
  {
    CumSumAt(Scale(h, n), i);
    assert Scale(h, n)[..i + 1] == Scale(h[..i + 1], n);
    SumScale(h[..i + 1], n);
  }

  /** Cumulative frequencies of a histogram of at most n values lie in [0, 1]. */
  lemma CumFreqsBounded(h: seq<nat>, n: nat)
    requires n > 0 && Sum(h) <= n
    ensures Probabilities(CumFreqs(h, n))
  {
    forall i | 0 <= i < |h|
      ensures 0.0 <= CumFreqs(h, n)[i] <= 1.0
    {
      CumFreqsAt(h, n, i);
      SumPrefixLe(h, i + 1);
      FractionAtMostOne(Sum(h[..i + 1]), n);
    }
  }

  /** `_fit`: strip missing values, then keep the sample or bin it over
      `linspace(min, max, n_bins + 1)`. `np.min` of an empty sample and a
      negative point count are ValueErrors, `n_bins + 1` on a non-integer
      a TypeError. */
  function FitKs(settings: ComputationSettings, reference: seq<Cell<real>>): (r: Result<KsState>)
    ensures var xs := RemoveMissing(reference);
      r.Err? <==>
        (!FitsExact(settings.mode, |xs|) && (xs == [] || settings.nBins.None? || settings.nBins.value < -1))
    ensures var xs := RemoveMissing(reference);
      FitsExact(settings.mode, |xs|) ==> r == Ok(KsState(|xs|, Some(xs), [], None))
    ensures r.Ok? ==> Consistent(r.value) && r.value.referenceSize == |RemoveMissing(reference)|
    ensures r.Ok? && !FitsExact(settings.mode, |RemoveMissing(reference)|) ==>
      r.value.sample.None? && r.value.refCumFreqs.Some?
    ensures var xs := RemoveMissing(reference);
      r.Ok? && !FitsExact(settings.mode, |xs|) ==>
        r.value.edges == Linspace(Min(xs), Max(xs), settings.nBins.value + 1) &&
        r.value.refCumFreqs == Some(CumFreqs(Histogram(xs, r.value.edges), |xs|))
    ensures r.Err? ==>
      r.error == (if RemoveMissing(reference) != [] && settings.nBins.None? then Raised("TypeError")
                  else Raised("ValueError"))
  {
    var xs := RemoveMissing(reference);
    var n := |xs|;
    if FitsExact(settings.mode, n) then Ok(KsState(n, Some(xs), [], None))
    else if xs == [] then Err(Raised("ValueError"))
    else if settings.nBins.None? then Err(Raised("TypeError"))
    else if settings.nBins.value + 1 < 0 then Err(Raised("ValueError"))
    else
      var edges := Linspace(Min(xs), Max(xs), settings.nBins.value + 1);
      var h := Histogram(xs, edges);
      CumFreqsBounded(h, n);
      Ok(KsState(n, None, edges, Some(CumFreqs(h, n))))
  }

  /** In estimated mode the reference's cumulative frequency reaches 1 at
      the last edge: the grid spans the sample from its minimum to its
      maximum. */
  lemma {:induction false} FitKsReachesOne(settings: ComputationSettings, reference: seq<Cell<real>>)
    requires FitKs(settings, reference).Ok?
    requires !FitsExact(settings.mode, |RemoveMissing(reference)|)
    requires settings.nBins.value >= 1
    ensures var c := FitKs(settings, reference).value.refCumFreqs.value;
      |c| == settings.nBins.value && c[|c| - 1] == 1.0
  {
    var xs := RemoveMissing(reference);
    var n := |xs|;
    var lo, hi := Min(xs), Max(xs);
    var edges := Linspace(lo, hi, settings.nBins.value + 1);
    var h := Histogram(xs, edges);
    assert FitKs(settings, reference).value.refCumFreqs.value == CumFreqs(h, n);
    assert lo <= hi && Sorted(edges) && edges[0] == lo && edges[|edges| - 1] == hi;
    assert Within(xs, edges[0], edges[|edges| - 1]);
    HistogramCovers(xs, edges);
    CumFreqsAt(h, n, |h| - 1);
    assert h[..|h|] == h;
    WholeFraction(n);
  }

  /** The chunk's cumulative frequencies: the fraction below the first
      edge plus the running fraction per bin. */
  function ChunkCumFreqs(xs: seq<real>, edges: seq<real>): (r: seq<real>)
    requires xs != [] && edges != [] && Sorted(edges)
    ensures |r| == NumBins(edges)
    ensures Probabilities(r)
  {
    var h := Histogram(xs, edges);
    var n := |xs|;
    var below := CountBelow(xs, edges[0]);
    var cum := CumFreqs(h, n);
    var r := Shift(below as real / n as real, cum);
    assert Probabilities(r) by {
      forall i | 0 <= i < |h|
        ensures 0.0 <= r[i] <= 1.0
      {
        CumFreqsAt(h, n, i);
        HistogramAndBelow(xs, edges);
        SumPrefixLe(h, i + 1);
        FractionSum(below, Sum(h[..i + 1]), n);
        FractionAtMostOne(below + Sum(h[..i + 1]), n);
      }
    }
    r
  }

  /** `c + v` for a scalar c and a vector v. */
  function Shift(c: real, v: seq<real>): (r: seq<real>)
    ensures |r| == |v| && forall i :: 0 <= i < |v| ==> r[i] == c + v[i]
  {
    seq(|v|, i requires 0 <= i < |v| => c + v[i])
  }

  /** The estimated statistic: the largest gap between the reference's and
      the chunk's cumulative frequencies, with the chunk's errors in the
      order NumPy and Python raise them. */
  function EstimatedStatistic(refCum: seq<real>, edges: seq<real>, xs: seq<real>): (r: Result<real>)
    requires Sorted(edges) && |refCum| == NumBins(edges)
    ensures r.Err? <==> edges == [] || xs == [] || |edges| == 1
    ensures r.Ok? ==> exists i :: 0 <= i < |refCum| && r.value == Abs(refCum[i] - ChunkCumFreqs(xs, edges)[i])
    ensures r.Ok? ==> forall i :: 0 <= i < |refCum| ==> Abs(refCum[i] - ChunkCumFreqs(xs, edges)[i]) <= r.value
  {
    if edges == [] then Err(Raised("IndexError"))
    else if xs == [] then Err(Raised("ZeroDivisionError"))
    else if |edges| == 1 then Err(Raised("ValueError"))
    else
      var d := AbsDiffs(refCum, ChunkCumFreqs(xs, edges));
      var m := Max(d);
      Ok(m)
  }

  /** Two probabilities are at most 1 apart, so the statistic lies in [0, 1]. */
  lemma EstimatedStatisticBounded(refCum: seq<real>, edges: seq<real>, xs: seq<real>)
    requires Sorted(edges) && |refCum| == NumBins(edges) && Probabilities(refCum)
    requires EstimatedStatistic(refCum, edges, xs).Ok?
    ensures 0.0 <= EstimatedStatistic(refCum, edges, xs).value <= 1.0
  {
    var c := ChunkCumFreqs(xs, edges);
    var d := AbsDiffs(refCum, c);
    assert forall i :: 0 <= i < |d| ==> 0.0 <= d[i] <= 1.0;
  }

  /** `_calculate`: strip missing values, then the estimated statistic or
      SciPy's `ks_2samp` on the raw samples, which raises a ValueError
      when either sample is empty. */
  function CalculateKs(s: KsState, mode: CalcMode, ks2samp: (seq<real>, seq<real>) -> Float, data: seq<Cell<real>>)
    : (r: Result<Float>)
    requires Consistent(s)
    ensures CalculatesEstimated(mode, s.referenceSize) && s.refCumFreqs.Some? ==>
      (r.Ok? <==> EstimatedStatistic(s.refCumFreqs.value, s.edges, RemoveMissing(data)).Ok?)
    ensures CalculatesEstimated(mode, s.referenceSize) && s.refCumFreqs.Some? && r.Ok? ==>
      r.value == Finite(EstimatedStatistic(s.refCumFreqs.value, s.edges, RemoveMissing(data)).value)
    ensures !CalculatesEstimated(mode, s.referenceSize) && s.sample.None? ==>
      r == Err(Foreign("ks_2samp received no reference sample"))
    ensures !CalculatesEstimated(mode, s.referenceSize) && s.sample.Some? ==>
      (r.Ok? <==> s.sample.value != [] && RemoveMissing(data) != []) &&
      (r.Ok? ==> r.value == ks2samp(s.sample.value, RemoveMissing(data))) &&
      (r.Err? ==> r == Err(Raised("ValueError")))
  {
    var xs := RemoveMissing(data);
    if CalculatesEstimated(mode, s.referenceSize) then
      if s.refCumFreqs.None? then Err(Raised("AttributeError"))
      else
        var stat :- EstimatedStatistic(s.refCumFreqs.value, s.edges, xs);
        Ok(Finite(stat))
    else if s.sample.None? then Err(Foreign("ks_2samp received no reference sample"))
    else if s.sample.value == [] || xs == [] then Err(Raised("ValueError"))
    else Ok(ks2samp(s.sample.value, xs))
  }

  /** A chunk with nothing below the first edge has exactly the running
      fractions of its own histogram. */
  lemma ChunkCumFreqsNoneBelow(xs: seq<real>, edges: seq<real>)
    requires xs != [] && edges != [] && Sorted(edges)
    requires forall i :: 0 <= i < |xs| ==> edges[0] <= xs[i]
    ensures ChunkCumFreqs(xs, edges) == CumFreqs(Histogram(xs, edges), |xs|)
  {
    NoneBelowMin(xs, edges[0]);
    var cum := CumFreqs(Histogram(xs, edges), |xs|);
    assert ChunkCumFreqs(xs, edges) == Shift(0 as real / |xs| as real, cum);
    ZeroFraction(|xs|);
    assert Shift(0.0, cum) == cum;
  }

  /** Identical cumulative frequencies give statistic 0. */
  lemma EstimatedStatisticOfEqual(cum: seq<real>, edges: seq<real>, xs: seq<real>)
    requires Sorted(edges) && |cum| == NumBins(edges) && 2 <= |edges| && xs != []
    requires ChunkCumFreqs(xs, edges) == cum
    ensures EstimatedStatistic(cum, edges, xs) == Ok(0.0)
  {
    var d := AbsDiffs(cum, cum);
    assert forall i :: 0 <= i < |d| ==> d[i] == 0.0;
    assert Max(d) in d;
  }

  /** The reference compared with itself in estimated mode: statistic 0. */
  lemma SelfComparisonIsZero(settings: ComputationSettings, reference: seq<Cell<real>>,
                             ks2samp: (seq<real>, seq<real>) -> Float)
    requires FitKs(settings, reference).Ok?
    requires settings.mode == Estimated && settings.nBins.value >= 1
    ensures CalculateKs(FitKs(settings, reference).value, settings.mode, ks2samp, reference) == Ok(Finite(0.0))
  {
    var xs := RemoveMissing(reference);
    var edges := Linspace(Min(xs), Max(xs), settings.nBins.value + 1);
    var cum := CumFreqs(Histogram(xs, edges), |xs|);
    assert FitKs(settings, reference).value == KsState(|xs|, None, edges, Some(cum));
    ChunkCumFreqsNoneBelow(xs, edges);
    EstimatedStatisticOfEqual(cum, edges, xs);
  }

  /** A mode other than the three known ones bins the reference and then
      finds no raw sample to compare against. */
  lemma OtherModeFails(settings: ComputationSettings, reference: seq<Cell<real>>,
                       ks2samp: (seq<real>, seq<real>) -> Float, data: seq<Cell<real>>)
    requires settings.mode == OtherMode && FitKs(settings, reference).Ok?
    ensures CalculateKs(FitKs(settings, reference).value, settings.mode, ks2samp, data).Err?
  {
  }

  /** `KolmogorovSmirnovStatistic`. */
  class KolmogorovSmirnovStatistic {
    const info: MethodInfo
    const threshold: ThresholdFn
    const settings: ComputationSettings
    const ks2samp: (seq<real>, seq<real>) -> Float
    var band: Band
    var state: Option<KsState>

    ghost predicate Valid()
      reads this
    {
      info == InfoOf(KolmogorovSmirnov) && (state.Some? ==> Consistent(state.value))
    }

    /** The settings are read from `computation_params` as the code is
        written: the method's name is looked up, but the values are read
        from the top level. */
    constructor (threshold: ThresholdFn, computationParams: Option<map<string, Param>>,
                 ks2samp: (seq<real>, seq<real>) -> Float)
      ensures Valid()
      ensures band == NoBand && state == None
      ensures settings == SettingsAsWritten(computationParams, "kolmogorov_smirnov")
      ensures this.threshold == threshold && this.ks2samp == ks2samp
    {
      info := InfoOf(KolmogorovSmirnov);
      this.threshold := threshold;
      settings := SettingsAsWritten(computationParams, "kolmogorov_smirnov");
      this.ks2samp := ks2samp;
      band := NoBand;
      state := None;
    }

    function Statistic(s: KsState, data: seq<Cell<real>>): Result<Float>
      requires Consistent(s)
    {
      CalculateKs(s, settings.mode, ks2samp, data)
    }

    function ChunkStatistics(s: KsState, chunks: seq<seq<Cell<real>>>): Result<seq<Float>>
      requires Consistent(s)
    {
      ChunkResults((d: seq<Cell<real>>) => Statistic(s, d), chunks)
    }

    method Fit(reference: seq<Cell<real>>, chunks: seq<seq<Cell<real>>>) returns (o: Outcome)
      requires Valid()
      modifies this
      ensures Valid()
      ensures var f := FitKs(settings, reference);
        f.Err? ==> o == Fail(f.error) && state == old(state) && band == old(band)
      ensures var f := FitKs(settings, reference);
        f.Ok? ==>
          (state == Some(f.value) &&
           var rs := ChunkStatistics(f.value, chunks);
           (rs.Err? ==> o == Fail(rs.error) && band == old(band)) &&
           (rs.Ok? ==> o == Pass && band == threshold(rs.value, info.lowerLimit, info.upperLimit)))
    {
      var f := FitKs(settings, reference);
      if f.Err? {
        return Fail(f.error);
      }
      state := Some(f.value);
      var rs := ChunkStatistics(f.value, chunks);
      if rs.Err? {
        return Fail(rs.error);
      }
      band := threshold(rs.value, info.lowerLimit, info.upperLimit);
      o := Pass;
    }

    /** `calculate`: NotFitted before `fit`. */
    function Calculate(data: seq<Cell<real>>): (r: Result<Float>)
      reads this
      requires Valid()
      ensures state.None? ==> r.Err? && r.error.NotFitted?
      ensures state.Some? ==> r == Statistic(state.value, data)
    {
      if state.None? then
        Err(NotFitted("tried to call 'calculate' on an unfitted method " + info.displayName + ". Please run 'fit' first"))
      else Statistic(state.value, data)
    }

    predicate Alert(v: Float)
      reads this
    {
      BandAlert(band, v)
    }
  }
}
