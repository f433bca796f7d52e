/** The Wasserstein distance: SciPy's exact computation on the raw samples
    for a small reference, otherwise a piecewise-constant estimate over the
    reference's evenly spaced bins, extended on either side until the
    chunk fits. */
module Wasserstein {
  import opened Wrappers
  import opened Floats
  import opened Seqs
  import opened Base
  import opened Histograms
  import opened MethodBase
  import opened Settings

  /** What `_fit` keeps: the reference size and either the raw sample
      (exact mode) or the bin edges, the relative frequency per bin and the
      bin width. */
  datatype WassersteinState = WassersteinState(
    referenceSize: nat,
    sample: Option<seq<real>>,
    edges: seq<real>,
    refFreqs: seq<Float>,
    width: real)

  /** A binned state has at least one bin of positive width and one
      frequency per bin, NaN exactly when the reference was empty. */
  predicate Consistent(s: WassersteinState) {
    s.sample.None? ==>
      2 <= |s.edges| && Sorted(s.edges) && |s.refFreqs| == |s.edges| - 1 &&
      s.width == s.edges[1] - s.edges[0] && s.width > 0.0 &&
      (AllFinite(s.refFreqs) <==> s.referenceSize > 0)
  }

  /** The range np.histogram spans for an integer bin count: [0, 1] for an
      empty sample, the sample's extremes widened by 0.5 when they
      coincide, the extremes themselves otherwise. */
  function OuterEdges(xs: seq<real>): (r: (real, real))
    ensures r.0 < r.1 && Within(xs, r.0, r.1)
    ensures xs != [] && Min(xs) < Max(xs) ==> r == (Min(xs), Max(xs))
  {
    if xs == [] then (0.0, 1.0)
    else if Min(xs) == Max(xs) then (Min(xs) - 0.5, Max(xs) + 0.5)
    else (Min(xs), Max(xs))
  }

  /** The second edge of an increasing grid lies above the first. */
  lemma LinspaceWidth(a: real, b: real, num: nat)
    requires a < b && num >= 2
    ensures Linspace(a, b, num)[1] > Linspace(a, b, num)[0]
  {
    var step := (b - a) / (num - 1) as real;
    assert step * (num - 1) as real == b - a;
    if step <= 0.0 {
      assert (-step) * (num - 1) as real == -(step * (num - 1) as real);
      MulNonNegative(-step, (num - 1) as real);
    }
  }

  /** `np.histogram(xs, bins=n)` and the derived state: n evenly spaced
      bins over the sample's range, each bin's count as a fraction of the
      sample, and the width of the first bin. */
  function BinReference(xs: seq<real>, bins: nat): (s: WassersteinState)
    requires bins >= 1
    ensures Consistent(s) && s.sample.None? && s.referenceSize == |xs| && |s.refFreqs| == bins
    ensures s.edges == Linspace(OuterEdges(xs).0, OuterEdges(xs).1, bins + 1)
    ensures xs != [] ==> AllFinite(s.refFreqs) && Reals(s.refFreqs) == Scale(Histogram(xs, s.edges), |xs|)
  {
    var n := |xs|;
    var (lo, hi) := OuterEdges(xs);
    var edges := Linspace(lo, hi, bins + 1);
    var h := Histogram(xs, edges);
    assert forall i :: 0 <= i < |h| ==> h[i] <= n by {
      forall i | 0 <= i < |h| ensures h[i] <= n { ElementLeSum(h, i); }
    }
    LinspaceWidth(lo, hi, bins + 1);
    var freqs := Proportions(h, n);
    assert n == 0 ==> freqs[0].NaN?;
    assert n > 0 ==> AllFinite(freqs) && Reals(freqs) == Scale(h, n) by {
      if n > 0 { ProportionsSum(h, n); }
    }
    WassersteinState(n, None, edges, freqs, edges[1] - edges[0])
  }

  /** `_fit`: strip missing values, then keep the sample or bin it with
      `np.histogram(reference, bins=n_bins)`; a bin count that is not an
      integer is a TypeError, one below 1 a ValueError. */
  function FitWasserstein(settings: ComputationSettings, reference: seq<Cell<real>>): (r: Result<WassersteinState>)
    ensures var xs := RemoveMissing(reference);
      r.Err? <==> !FitsExact(settings.mode, |xs|) && (settings.nBins.None? || settings.nBins.value < 1)
    ensures var xs := RemoveMissing(reference);
      FitsExact(settings.mode, |xs|) ==> r == Ok(WassersteinState(|xs|, Some(xs), [], [], 0.0))
    ensures r.Ok? ==> Consistent(r.value) && r.value.referenceSize == |RemoveMissing(reference)|
    ensures var xs := RemoveMissing(reference);
      r.Ok? && !FitsExact(settings.mode, |xs|) ==> r.value == BinReference(xs, settings.nBins.value)
    ensures r.Err? ==> r.error == (if settings.nBins.None? then Raised("TypeError") else Raised("ValueError"))
  {
    var xs := RemoveMissing(reference);
    var n := |xs|;
    if FitsExact(settings.mode, n) then Ok(WassersteinState(n, Some(xs), [], [], 0.0))
    else if settings.nBins.None? then Err(Raised("TypeError"))
    else if settings.nBins.value < 1 then Err(Raised("ValueError"))
    else Ok(BinReference(xs, settings.nBins.value))
  }

  /** The binned reference's relative frequencies add up to 1: the bins
      span the whole sample. */
  lemma {:induction false} BinnedFrequenciesSumToOne(xs: seq<real>, bins: nat)
    requires bins >= 1 && xs != []
    ensures AllFinite(BinReference(xs, bins).refFreqs) && SumR(Reals(BinReference(xs, bins).refFreqs)) == 1.0
  {
    var s := BinReference(xs, bins);
    var (lo, hi) := OuterEdges(xs);
    HistogramCovers(xs, s.edges);
    SumScale(Histogram(xs, s.edges), |xs|);
    WholeFraction(|xs|);
  }

  /** `np.ceil`. */
  function Ceil(x: real): (c: int)
    ensures (c - 1) as real < x <= c as real
  {
    -((-x).Floor)
  }

  /** Multiplying back by a positive step: c steps reach x, c - 1 do not. */
  lemma CeilScaled(x: real, w: real)
    requires w > 0.0
    ensures var c := Ceil(x / w);
      (c - 1) as real * w < x <= c as real * w && (c > 0 <==> x > 0.0)
  {
    var q := x / w;
    var c := Ceil(q);
    assert q * w == x;
    MulLess((c - 1) as real, q, w);
    MulAtMost(q, c as real, w);
    if c > 0 {
      MulAtMost(0.0, (c - 1) as real, w);
    } else {
      MulAtMost(c as real, 0.0, w);
    }
  }

  /** The length of `np.arange(start, stop, step)` for a positive step:
      `ceil((stop - start) / step)`, or 0 when that is not positive. */
  function ArangeLength(start: real, stop: real, step: real): (r: nat)
    requires step > 0.0
    ensures r == 0 <==> stop <= start
    ensures r > 0 ==> (r - 1) as real * step < stop - start <= r as real * step
  {
    CeilScaled(stop - start, step);
    var c := Ceil((stop - start) / step);
    if c > 0 then c else 0
  }

  /** The values of `np.arange`: start, start + step, ... */
  function Arange(start: real, count: nat, step: real): (r: seq<real>)
    requires step > 0.0
    ensures |r| == count
    ensures forall k :: 0 <= k < count ==> r[k] == start + k as real * step
    ensures forall i, j :: 0 <= i < j < count ==> r[i] < r[j]
  {
    var r := seq(count, k requires 0 <= k < count => start + k as real * step);
    assert forall i, j :: 0 <= i < j < count ==> r[i] < r[j] by {
      forall i, j | 0 <= i < j < count
        ensures r[i] < r[j]
      {
        assert (j - i) as real * step == j as real * step - i as real * step;
        MulPositive((j - i) as real, step);
      }
    }
    r
  }

  /** The edges prepended below the grid: `np.arange(min - w, e0 - w, w)`.
      All lie below e0, and there are none when the chunk does not reach
      below e0. */
  function LeftEdges(m: real, e0: real, w: real): (r: seq<real>)
    requires w > 0.0
    ensures r == [] <==> e0 <= m
    ensures r != [] ==> r[0] == m - w
    ensures forall i :: 0 <= i < |r| ==> r[i] < e0
    ensures forall i, j :: 0 <= i < j < |r| ==> r[i] < r[j]
  {
    var c := ArangeLength(m - w, e0 - w, w);
    var r := Arange(m - w, c, w);
    assert forall i :: 0 <= i < |r| ==> r[i] < e0 by {
      forall i | 0 <= i < |r|
        ensures r[i] < e0
      {
        assert (c - 1 - i) as real * w == (c - 1) as real * w - i as real * w;
        MulNonNegative((c - 1 - i) as real, w);
      }
    }
    r
  }

  /** The edges appended above the grid: `np.arange(eL + w, max + w, w)`.
      All lie above eL, the last reaches the chunk's maximum, and there are
      none when the chunk does not reach above eL. */
  function RightEdges(eL: real, mx: real, w: real): (r: seq<real>)
    requires w > 0.0
    ensures r == [] <==> mx <= eL
    ensures r != [] ==> r[|r| - 1] >= mx
    ensures forall i :: 0 <= i < |r| ==> r[i] > eL
    ensures forall i, j :: 0 <= i < j < |r| ==> r[i] < r[j]
  {
    var c := ArangeLength(eL + w, mx + w, w);
    var r := Arange(eL + w, c, w);
    assert forall i :: 0 <= i < |r| ==> r[i] > eL by {
      forall i | 0 <= i < |r|
        ensures r[i] > eL
      {
        MulNonNegative(i as real, w);
      }
    }
    assert c > 0 ==> r[c - 1] >= mx by {
      if c > 0 {
        assert (c - 1) as real * w == c as real * w - w;
      }
    }
    r
  }

  /** Left edges, the reference's edges, right edges. */
  function ExtendedEdges(e: seq<real>, w: real, m: real, mx: real): (r: seq<real>)
    requires w > 0.0 && 2 <= |e| && Sorted(e)
    ensures r == LeftEdges(m, e[0], w) + e + RightEdges(e[|e| - 1], mx, w)
    ensures Sorted(r)
    ensures r[0] <= m && mx <= r[|r| - 1]
  {
    var left := LeftEdges(m, e[0], w);
    var right := RightEdges(e[|e| - 1], mx, w);
    var r := left + e + right;
    assert Sorted(r) by {
      forall i, j | 0 <= i <= j < |r|
        ensures r[i] <= r[j]
      {
        if i < |left| && |left| <= j < |left| + |e| {
          assert r[j] == e[j - |left|] && e[0] <= e[j - |left|];
        } else if |left| <= i < |left| + |e| && |left| + |e| <= j {
          assert r[i] == e[i - |left|] && e[i - |left|] <= e[|e| - 1];
        } else if i < |left| && |left| + |e| <= j {
          assert e[0] <= e[|e| - 1];
        }
      }
    }
    r
  }

  /** `np.concatenate([zeros(left), ref_rel_freqs, zeros(right)])`. */
  function PaddedFrequencies(left: nat, freqs: seq<real>, right: nat): (r: seq<real>)
    ensures |r| == left + |freqs| + right
    ensures r[left..left + |freqs|] == freqs
    ensures forall i :: 0 <= i < left ==> r[i] == 0.0
    ensures forall i :: left + |freqs| <= i < |r| ==> r[i] == 0.0
  {
    ZerosR(left) + freqs + ZerosR(right)
  }

  /** Each entry of v times the bin width. */
  function Weighted(v: seq<real>, w: real): (r: seq<real>)
    requires w > 0.0 && forall i :: 0 <= i < |v| ==> v[i] >= 0.0
    ensures |r| == |v|
    ensures forall i :: 0 <= i < |v| ==> r[i] == v[i] * w && r[i] >= 0.0
  {
    var r := seq(|v|, i requires 0 <= i < |v| => v[i] * w);
    assert forall i :: 0 <= i < |v| ==> r[i] >= 0.0 by {
      forall i | 0 <= i < |v| ensures r[i] >= 0.0 { MulNonNegative(v[i], w); }
    }
    r
  }

  /** The estimated distance on a non-empty chunk: both cumulative
      distributions over the extended grid, the absolute gap per bin times
      the bin width, summed. A NaN reference frequency makes it NaN. */
  function EstimatedDistance(s: WassersteinState, xs: seq<real>): (r: Float)
    requires Consistent(s) && s.sample.None? && xs != []
    ensures r.NaN? <==> s.referenceSize == 0
    ensures r.Finite? ==> r.v >= 0.0
  {
    var extended := ExtendedEdges(s.edges, s.width, Min(xs), Max(xs));
    var left := LeftEdges(Min(xs), s.edges[0], s.width);
    var right := RightEdges(s.edges[|s.edges| - 1], Max(xs), s.width);
    var chunkFreqs := Scale(Histogram(xs, extended), |xs|);
    if !AllFinite(s.refFreqs) then NaN
    else
      var refFreqs := PaddedFrequencies(|left|, Reals(s.refFreqs), |right|);
      var gaps := AbsDiffs(CumSum(refFreqs), CumSum(chunkFreqs));
      var weighted := Weighted(gaps, s.width);
      SumRNonNegative(weighted);
      Finite(SumR(weighted))
  }

  /** The padded reference vector has one entry per bin of the extended
      grid, and the chunk falls entirely inside that grid, so its relative
      frequencies add up to 1. */
  lemma ExtendedGridFits(s: WassersteinState, xs: seq<real>)
    requires Consistent(s) && s.sample.None? && xs != []
    ensures var extended := ExtendedEdges(s.edges, s.width, Min(xs), Max(xs));
      var left := LeftEdges(Min(xs), s.edges[0], s.width);
      var right := RightEdges(s.edges[|s.edges| - 1], Max(xs), s.width);
      |left| + |s.refFreqs| + |right| == NumBins(extended) &&
      Sum(Histogram(xs, extended)) == |xs| &&
      SumR(Scale(Histogram(xs, extended), |xs|)) == 1.0
  {
    var extended := ExtendedEdges(s.edges, s.width, Min(xs), Max(xs));
    assert Within(xs, extended[0], extended[|extended| - 1]);
    HistogramCovers(xs, extended);
    SumScale(Histogram(xs, extended), |xs|);
    WholeFraction(|xs|);
  }

  /** `_calculate` on a fitted state: strip missing values, then the
      estimated distance or SciPy's `wasserstein_distance` on the raw
      samples. An empty chunk has no minimum, a ValueError; SciPy too
      raises a ValueError when either raw sample is empty. */
  function CalculateWasserstein(s: WassersteinState, mode: CalcMode,
                                wassersteinDistance: (seq<real>, seq<real>) -> Float,
                                data: seq<Cell<real>>): (r: Result<Float>)
    requires Consistent(s)
    ensures var xs := RemoveMissing(data);
      CalculatesEstimated(mode, s.referenceSize) ==>
        (xs == [] ==> r == Err(Raised("ValueError"))) &&
        (xs != [] && s.sample.None? ==> r == Ok(EstimatedDistance(s, xs)))
    ensures !CalculatesEstimated(mode, s.referenceSize) && s.sample.None? ==>
      r == Err(Foreign("wasserstein_distance received no reference sample"))
    ensures !CalculatesEstimated(mode, s.referenceSize) && s.sample.Some? ==>
      (r.Ok? <==> s.sample.value != [] && RemoveMissing(data) != []) &&
      (r.Ok? ==> r.value == wassersteinDistance(s.sample.value, RemoveMissing(data))) &&
      (r.Err? ==> r == Err(Raised("ValueError")))
  {
    var xs := RemoveMissing(data);
    if CalculatesEstimated(mode, s.referenceSize) then
      if xs == [] then Err(Raised("ValueError"))
      else if s.sample.Some? then Err(Raised("AttributeError"))
      else Ok(EstimatedDistance(s, xs))
    else if s.sample.None? then Err(Foreign("wasserstein_distance received no reference sample"))
    else if s.sample.value == [] || xs == [] then Err(Raised("ValueError"))
    else Ok(wassersteinDistance(s.sample.value, xs))
  }

  /** A chunk inside the reference's range needs no extra edges. */
  lemma NoExtensionInside(s: WassersteinState, xs: seq<real>)
    requires Consistent(s) && s.sample.None? && xs != []
    requires Within(xs, s.edges[0], s.edges[|s.edges| - 1])
    ensures ExtendedEdges(s.edges, s.width, Min(xs), Max(xs)) == s.edges
  {
    assert LeftEdges(Min(xs), s.edges[0], s.width) == [];
    assert RightEdges(s.edges[|s.edges| - 1], Max(xs), s.width) == [];
  }

  /** The weighted gaps of two equal distributions are all 0. */
  lemma SumOfEqualGaps(c: seq<real>, w: real)
    requires w > 0.0
    ensures SumR(Weighted(AbsDiffs(c, c), w)) == 0.0
  {
    var g := Weighted(AbsDiffs(c, c), w);
    assert g == ZerosR(|c|);
  }

  /** The reference compared with itself in estimated mode: distance 0. */
  lemma SelfComparisonIsZero(settings: ComputationSettings, reference: seq<Cell<real>>,
                             wassersteinDistance: (seq<real>, seq<real>) -> Float)
    requires FitWasserstein(settings, reference).Ok?
    requires settings.mode == Estimated && RemoveMissing(reference) != []
    ensures CalculateWasserstein(FitWasserstein(settings, reference).value, settings.mode,
                                 wassersteinDistance, reference) == Ok(Finite(0.0))
  {
    var xs := RemoveMissing(reference);
    var s := BinReference(xs, settings.nBins.value);
    assert FitWasserstein(settings, reference) == Ok(s);
    BinnedDistanceToItself(xs, settings.nBins.value);
  }

  /** The binned reference against its own sample: distance 0. */
  lemma BinnedDistanceToItself(xs: seq<real>, bins: nat)
    requires bins >= 1 && xs != []
    ensures EstimatedDistance(BinReference(xs, bins), xs) == Finite(0.0)
  {
    var s := BinReference(xs, bins);
    var (lo, hi) := OuterEdges(xs);
    assert Within(xs, s.edges[0], s.edges[|s.edges| - 1]);
    NoExtensionInside(s, xs);
    var padded := PaddedFrequencies(0, Reals(s.refFreqs), 0);
    assert padded == Scale(Histogram(xs, s.edges), |xs|);
    SumOfEqualGaps(CumSum(padded), s.width);
  }

  /** A mode other than the three known ones bins the reference and then
      finds no raw sample to compare against. */
  lemma OtherModeFails(settings: ComputationSettings, reference: seq<Cell<real>>,
                       wassersteinDistance: (seq<real>, seq<real>) -> Float, data: seq<Cell<real>>)
    requires settings.mode == OtherMode && FitWasserstein(settings, reference).Ok?
    ensures CalculateWasserstein(FitWasserstein(settings, reference).value, settings.mode,
                                 wassersteinDistance, data).Err?
  {
  }

  /** `WassersteinDistance`. */
  class WassersteinDistance {
    const info: MethodInfo
    const threshold: ThresholdFn
    const settings: ComputationSettings
    const wassersteinDistance: (seq<real>, seq<real>) -> Float
    var band: Band
    var state: Option<WassersteinState>

    ghost predicate Valid()
      reads this
    {
      info == InfoOf(Wasserstein) && (state.Some? ==> Consistent(state.value))
    }

    /** The settings are read from `computation_params` as the code is
        written: the method's name is looked up, but the values are read
        from the top level. */
    constructor (threshold: ThresholdFn, computationParams: Option<map<string, Param>>,
                 wassersteinDistance: (seq<real>, seq<real>) -> Float)
      ensures Valid()
      ensures band == NoBand && state == None
      ensures settings == SettingsAsWritten(computationParams, "wasserstein")
      ensures this.threshold == threshold && this.wassersteinDistance == wassersteinDistance
    {
      info := InfoOf(Wasserstein);
      this.threshold := threshold;
      settings := SettingsAsWritten(computationParams, "wasserstein");
      this.wassersteinDistance := wassersteinDistance;
      band := NoBand;
      state := None;
    }

    function Distance(s: WassersteinState, data: seq<Cell<real>>): Result<Float>
      requires Consistent(s)
    {
      CalculateWasserstein(s, settings.mode, wassersteinDistance, data)
    }

    function ChunkDistances(s: WassersteinState, chunks: seq<seq<Cell<real>>>): Result<seq<Float>>
      requires Consistent(s)
    {
      ChunkResults((d: seq<Cell<real>>) => Distance(s, d), chunks)
    }

    /** `fit`: `_fit`, which marks the method fitted, then the thresholds
        from the distances of the reference chunks. */
    method Fit(reference: seq<Cell<real>>, chunks: seq<seq<Cell<real>>>) returns (o: Outcome)
      requires Valid()
      modifies this
      ensures Valid()
      ensures var f := FitWasserstein(settings, reference);
        f.Err? ==> o == Fail(f.error) && state == old(state) && band == old(band)
      ensures var f := FitWasserstein(settings, reference);
        f.Ok? ==>
          (state == Some(f.value) &&
           var rs := ChunkDistances(f.value, chunks);
           (rs.Err? ==> o == Fail(rs.error) && band == old(band)) &&
           (rs.Ok? ==> o == Pass && band == threshold(rs.value, info.lowerLimit, info.upperLimit)))
    {
      var f := FitWasserstein(settings, reference);
      if f.Err? {
        return Fail(f.error);
      }
      state := Some(f.value);
      var rs := ChunkDistances(f.value, chunks);
      if rs.Err? {
        return Fail(rs.error);
      }
      band := threshold(rs.value, info.lowerLimit, info.upperLimit);
      o := Pass;
    }

    /** `calculate`: NotFitted before `fit`. */
    function Calculate(data: seq<Cell<real>>): (r: Result<Float>)
      reads this
      requires Valid()
      ensures state.None? ==> r.Err? && r.error.NotFitted?
      ensures state.Some? ==> r == Distance(state.value, data)
    {
      if state.None? then
        Err(NotFitted("tried to call 'calculate' on an unfitted method " + info.displayName + ". Please run 'fit' first"))
      else Distance(state.value, data)
    }

    predicate Alert(v: Float)
      reads this
    {
      BandAlert(band, v)
    }
  }
}
