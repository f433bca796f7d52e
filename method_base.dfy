/** What every drift method shares: its identity, the feature types and
    method kinds the factory knows, the threshold band and the default
    alert rule, and the collection of per-chunk results during `fit`. */
module MethodBase {
  import opened Wrappers
  import opened Floats

  datatype FeatureType = Continuous | Categorical

  /** The six method implementations of the module. */
  datatype MethodKind =
    | JensenShannon
    | KolmogorovSmirnov
    | Chi2
    | LInfinity
    | Wasserstein
    | Hellinger

  /** A method's display name, column name and threshold limits. */
  datatype MethodInfo = MethodInfo(
    displayName: string,
    columnName: string,
    lowerLimit: Option<real>,
    upperLimit: Option<real>)

  /** The identity each method class passes to the base constructor. */
  function InfoOf(kind: MethodKind): (info: MethodInfo)
    ensures info.lowerLimit == Some(0.0)
    ensures info.upperLimit.Some? <==> kind == KolmogorovSmirnov || kind == Chi2
    ensures info.upperLimit.Some? ==> info.upperLimit.value == 1.0
  {
    match kind
    case JensenShannon => MethodInfo("Jensen-Shannon distance", "jensen_shannon", Some(0.0), None)
    case KolmogorovSmirnov => MethodInfo("Kolmogorov-Smirnov statistic", "kolmogorov_smirnov", Some(0.0), Some(1.0))
    case Chi2 => MethodInfo("Chi2 statistic", "chi2", Some(0.0), Some(1.0))
    case LInfinity => MethodInfo("L-Infinity distance", "l_infinity", Some(0.0), None)
    case Wasserstein => MethodInfo("Wasserstein distance", "wasserstein", Some(0.0), None)
    case Hellinger => MethodInfo("Hellinger distance", "hellinger", Some(0.0), None)
  }

  /** `__eq__`: two methods are equal when display and column names agree. */
  predicate SameMethod(a: MethodInfo, b: MethodInfo) {
    a.displayName == b.displayName && a.columnName == b.columnName
  }

  /** Methods of different kinds never compare equal, whatever their state. */
  lemma SameMethodIffSameKind(k1: MethodKind, k2: MethodKind)
    ensures SameMethod(InfoOf(k1), InfoOf(k2)) <==> k1 == k2
  {
    if k1 != k2 {
      assert InfoOf(k1).columnName != InfoOf(k2).columnName;
    }
  }

  /** The optional lower and upper threshold values of a method. */
  datatype Band = Band(lower: Option<real>, upper: Option<real>)

  const NoBand := Band(None, None)

  /** The default `alert`: below a set lower threshold or above a set upper
      one. Comparisons with NaN are false. */
  predicate BandAlert(b: Band, v: Float) {
    (b.lower.Some? && Below(v, b.lower.value)) || (b.upper.Some? && Above(v, b.upper.value))
  }

  /** A value inside every bound that is set. */
  predicate WithinBand(b: Band, x: real) {
    (b.lower.None? || b.lower.value <= x) && (b.upper.None? || x <= b.upper.value)
  }

  /** A number alerts exactly when it leaves the band; NaN never alerts,
      and neither does anything when no threshold is set. */
  lemma BandAlertSpec(b: Band, v: Float)
    ensures v.Finite? ==> (BandAlert(b, v) <==> !WithinBand(b, v.v))
    ensures v.NaN? ==> !BandAlert(b, v)
    ensures b == NoBand ==> !BandAlert(b, v)
  {
  }

  /** `calculate_threshold_values` applied to the method's configured
      threshold: the per-chunk values and the lower and upper limits give
      the band. It lives outside this model and is a parameter. */
  type ThresholdFn = (seq<Float>, Option<real>, Option<real>) -> Band

  /** Chunk i raised e and every chunk before it succeeded. */
  predicate FirstFailure<D>(compute: D -> Result<Float>, chunks: seq<D>, i: int, e: Error) {
    0 <= i < |chunks| && compute(chunks[i]) == Err(e) &&
    forall k :: 0 <= k < i ==> compute(chunks[k]).Ok?
  }

  /** `[self._calculate(chunk) for chunk in chunks]`: all values, or the
      first chunk's exception. */
  function ChunkResults<D>(compute: D -> Result<Float>, chunks: seq<D>): (r: Result<seq<Float>>)
    ensures r.Ok? <==> forall i :: 0 <= i < |chunks| ==> compute(chunks[i]).Ok?
    ensures r.Ok? ==> |r.value| == |chunks|
    ensures r.Ok? ==> forall i :: 0 <= i < |chunks| ==> r.value[i] == compute(chunks[i]).value
    ensures r.Err? ==> exists i :: FirstFailure(compute, chunks, i, r.error)
  {
    if chunks == [] then Ok([])
    else
      var first := compute(chunks[0]);
      if first.Err? then
        assert FirstFailure(compute, chunks, 0, first.error);
        Err(first.error)
      else
        var rest := ChunkResults(compute, chunks[1..]);
        if rest.Err? then
          var i :| FirstFailure(compute, chunks[1..], i, rest.error);
          assert FirstFailure(compute, chunks, i + 1, rest.error) by {
            forall k | 0 <= k < i + 1
              ensures compute(chunks[k]).Ok?
            {
              if k > 0 {
                assert chunks[k] == chunks[1..][k - 1];
              }
            }
          }
          Err(rest.error)
        else
          assert forall i :: 1 <= i < |chunks| ==> chunks[i] == chunks[1..][i - 1];
          Ok([first.value] + rest.value)
  }

  /** The first failing chunk decides the error `ChunkResults` reports. */
  lemma FirstFailureUnique<D>(compute: D -> Result<Float>, chunks: seq<D>, i: int, e: Error)
    requires FirstFailure(compute, chunks, i, e)
    ensures ChunkResults(compute, chunks) == Err(e)
  {
    var rs := ChunkResults(compute, chunks);
    var j :| FirstFailure(compute, chunks, j, rs.error);
    assert j == i;
  }
}
