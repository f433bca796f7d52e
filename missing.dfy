/** The missing-values calculator: per column, how many entries of each
    chunk are missing, with a sampling error derived from the reference's
    missing rate. */
module MissingValues {
  import opened Wrappers
  import opened Floats
  import opened Seqs
  import opened Base
  import opened DataQuality

  const Fields := ["value", "sampling_error", "upper_confidence_boundary", "lower_confidence_boundary",
                   "upper_threshold", "lower_threshold", "alert"]

  /** A column's entries in one result row. */
  datatype MissingResult = MissingResult(
    value: Float,
    samplingError: Float,
    upperConfidenceBoundary: Float,
    lowerConfidenceBoundary: Float,
    upperThreshold: Option<real>,
    lowerThreshold: Option<real>,
    alert: bool)

  /** `_calculate_missing_value_stats`: the number of missing entries, or
      their share of the column when normalising (NaN for an empty column),
      and the column's length. */
  function MissingStats(column: seq<Cell<Value>>, normalize: bool): (r: (Float, nat))
    ensures r.1 == |column|
    ensures r.0.NaN? <==> normalize && column == []
    ensures !normalize ==> r.0 == Finite(CountMissing(column) as real)
    ensures r.0.Finite? ==> 0.0 <= r.0.v <= |column| as real && (normalize ==> r.0.v <= 1.0)
    ensures r.0.Finite? ==> (r.0.v == 0.0 <==> CountMissing(column) == 0)
    ensures normalize && r.0.Finite? ==> r.0.v * |column| as real == CountMissing(column) as real
  {
    var count := CountMissing(column);
    if normalize then
      var r := Ratio(count, |column|);
      assert r.Finite? ==> r.v <= |column| as real by {
        if r.Finite? {
          assert 1.0 <= |column| as real;
        }
      }
      (r, |column|)
    else (Finite(count as real), |column|)
  }

  /** The reference's missing rate, `count_nan if normalize else
      count_nan / count_tot`: the same in both branches. */
  function SamplingErrorComponent(column: seq<Cell<Value>>, normalize: bool): (p: real)
    requires column != []
    ensures p == CountMissing(column) as real / |column| as real
    ensures 0.0 <= p <= 1.0
  {
    FractionAtMostOne(CountMissing(column), |column|);
    var (value, total) := MissingStats(column, normalize);
    if normalize then value.v else value.v / total as real
  }

  /** The variance of a rate: p (1 - p) lies in [0, 1/4]. */
  lemma RateVarianceBounded(p: real)
    requires 0.0 <= p <= 1.0
    ensures 0.0 <= p * (1.0 - p) <= 0.25
  {
    assert p * (1.0 - p) == 0.25 - (p - 0.5) * (p - 0.5);
    if p < 1.0 {
      MulNonNegative(p, 1.0 - p);
    } else {
      assert 1.0 - p == 0.0;
    }
    if p > 0.5 {
      MulPositive(p - 0.5, p - 0.5);
    } else if p < 0.5 {
      MulPositive(0.5 - p, 0.5 - p);
      assert (0.5 - p) * (0.5 - p) == (p - 0.5) * (p - 0.5);
    }
  }

  /** The sampling error of a chunk of `total` entries: sqrt(p (1 - p))
      divided by sqrt(total) for a rate, multiplied by it for a count. A
      division by sqrt(0) has no finite result. */
  function SamplingError(p: real, total: nat, normalize: bool, sqrt: real -> real): (r: Float)
    ensures !normalize ==> r.Finite? && r.v == sqrt(p * (1.0 - p)) * sqrt(total as real)
    ensures normalize ==> (r.NaN? <==> sqrt(total as real) == 0.0)
    ensures normalize && r.Finite? ==> r.v * sqrt(total as real) == sqrt(p * (1.0 - p))
  {
    var root := sqrt(total as real);
    if !normalize then Finite(sqrt(p * (1.0 - p)) * root)
    else if root == 0.0 then NaN
    else Finite(sqrt(p * (1.0 - p)) / root)
  }

  /** value + range * serr and value - range * serr; NaN propagates. */
  function ConfidenceBounds(value: Float, serr: Float, range: real): (r: (Float, Float))
    ensures r.0.Finite? <==> value.Finite? && serr.Finite?
    ensures r.1.Finite? <==> value.Finite? && serr.Finite?
    ensures r.0.Finite? ==> r.0.v - value.v == value.v - r.1.v
    ensures r.0.Finite? ==> r.0.v - r.1.v == 2.0 * range * serr.v
  {
    if value.Finite? && serr.Finite? then
      (Finite(value.v + range * serr.v), Finite(value.v - range * serr.v))
    else (NaN, NaN)
  }

  /** A non-negative sampling error and range give bounds around the value. */
  lemma ConfidenceBoundsOrdered(value: Float, serr: Float, range: real)
    requires value.Finite? && serr.Finite? && serr.v >= 0.0 && range >= 0.0
    ensures ConfidenceBounds(value, serr, range).1.v <= value.v <= ConfidenceBounds(value, serr, range).0.v
  {
    if range > 0.0 {
      MulNonNegative(serr.v, range);
      assert range * serr.v == serr.v * range;
    }
  }

  /** `_calculate_for_column`. */
  function ColumnResult(column: seq<Cell<Value>>, p: real, upper: Option<real>, lower: Option<real>,
                        normalize: bool, sqrt: real -> real, range: real, alertFlag: AlertFlag): (r: MissingResult)
    ensures (r.value, |column|) == MissingStats(column, normalize)
    ensures r.samplingError == SamplingError(p, |column|, normalize, sqrt)
    ensures (r.upperConfidenceBoundary, r.lowerConfidenceBoundary) == ConfidenceBounds(r.value, r.samplingError, range)
    ensures r.upperThreshold == upper && r.lowerThreshold == lower
    ensures r.alert == alertFlag(r.value, upper, lower)
  {
    var (value, total) := MissingStats(column, normalize);
    var serr := SamplingError(p, total, normalize, sqrt);
    var (upperBound, lowerBound) := ConfidenceBounds(value, serr, range);
    MissingResult(value, serr, upperBound, lowerBound, upper, lower, alertFlag(value, upper, lower))
  }

  /** A square root that is never negative gives a sampling error that is
      never negative. */
  lemma SamplingErrorNonNegative(p: real, total: nat, normalize: bool, sqrt: real -> real)
    requires forall x :: sqrt(x) >= 0.0
    ensures SamplingError(p, total, normalize, sqrt).Finite? ==> SamplingError(p, total, normalize, sqrt).v >= 0.0
  {
    var a, b := sqrt(p * (1.0 - p)), sqrt(total as real);
    if normalize {
      if b != 0.0 {
        assert a / b >= 0.0;
      }
    } else if b > 0.0 {
      MulNonNegative(a, b);
    } else {
      assert b == 0.0;
    }
  }

  /** With such a square root and a non-negative range, the confidence
      boundaries of every column result enclose its value. */
  lemma ColumnResultBoundsEnclose(column: seq<Cell<Value>>, p: real, upper: Option<real>, lower: Option<real>,
                                  normalize: bool, sqrt: real -> real, range: real, alertFlag: AlertFlag)
    requires forall x :: sqrt(x) >= 0.0
    requires range >= 0.0
    ensures var r := ColumnResult(column, p, upper, lower, normalize, sqrt, range, alertFlag);
      r.upperConfidenceBoundary.Finite? ==>
        r.lowerConfidenceBoundary.v <= r.value.v <= r.upperConfidenceBoundary.v
  {
    var r := ColumnResult(column, p, upper, lower, normalize, sqrt, range, alertFlag);
    if r.upperConfidenceBoundary.Finite? {
      SamplingErrorNonNegative(p, |column|, normalize, sqrt);
      ConfidenceBoundsOrdered(r.value, r.samplingError, range);
    }
  }

  /** A reference column without missing entries has rate 0, and every
      chunk then gets sampling error 0 whenever sqrt(0) is 0. */
  lemma CompleteReferenceHasNoSamplingError(reference: seq<Cell<Value>>, normalize: bool, total: nat,
                                            sqrt: real -> real)
    requires reference != [] && forall i :: 0 <= i < |reference| ==> reference[i].Val?
    requires sqrt(0.0) == 0.0
    requires normalize ==> sqrt(total as real) != 0.0
    ensures SamplingErrorComponent(reference, normalize) == 0.0
    ensures SamplingError(SamplingErrorComponent(reference, normalize), total, normalize, sqrt) == Finite(0.0)
  {
    RemoveMissingNoMissing(reference);
    ZeroFraction(|reference|);
    var p := SamplingErrorComponent(reference, normalize);
    assert p * (1.0 - p) == 0.0;
  }

  /** The fitted state a row is computed from. */
  predicate Covers(names: seq<string>, components: map<string, real>,
                   upper: map<string, Option<real>>, lower: map<string, Option<real>>) {
    forall c :: c in names ==> c in components && c in upper && c in lower
  }

  /** What a row needs besides the chunk and the fitted state. */
  datatype MissingSettings = MissingSettings(normalize: bool, sqrt: real -> real, range: real, alertFlag: AlertFlag)

  /** The row of one chunk: its own columns, period 'analysis', and one
      result per requested column, in order. */
  function ChunkRow(chunk: Chunk, names: seq<string>, components: map<string, real>,
                    upper: map<string, Option<real>>, lower: map<string, Option<real>>,
                    settings: MissingSettings): (r: Row<MissingResult>)
    requires Covers(names, components, upper, lower)
    requires forall c :: c in names ==> c in chunk.data.columns
    ensures r.chunk == chunk.info && r.period == "analysis" && |r.results| == |names|
  {
    Row(chunk.info, "analysis",
        seq(|names|, j requires 0 <= j < |names| =>
          ColumnResult(Column(chunk.data, names[j]), components[names[j]], upper[names[j]], lower[names[j]],
                       settings.normalize, settings.sqrt, settings.range, settings.alertFlag)))
  }

  /** One row per chunk, in chunk order. */
  function ChunkRows(chunks: seq<Chunk>, names: seq<string>, components: map<string, real>,
                     upper: map<string, Option<real>>, lower: map<string, Option<real>>,
                     settings: MissingSettings): (r: seq<Row<MissingResult>>)
    requires Covers(names, components, upper, lower)
    requires forall i, c :: 0 <= i < |chunks| && c in names ==> c in chunks[i].data.columns
    ensures |r| == |chunks|
    ensures forall i :: 0 <= i < |chunks| ==>
      r[i].chunk == chunks[i].info && r[i].period == "analysis" && |r[i].results| == |names|
  {
    seq(|chunks|, i requires 0 <= i < |chunks| => ChunkRow(chunks[i], names, components, upper, lower, settings))
  }

  /** The values of one column over the reference chunks. */
  function ReferenceChunkValues(chunks: seq<Chunk>, c: string, normalize: bool): (r: seq<Float>)
    requires forall i :: 0 <= i < |chunks| ==> c in chunks[i].data.columns
    ensures |r| == |chunks|
    ensures forall i :: 0 <= i < |chunks| ==> r[i] == MissingStats(Column(chunks[i].data, c), normalize).0
  {
    seq(|chunks|, i requires 0 <= i < |chunks| => MissingStats(Column(chunks[i].data, c), normalize).0)
  }

  /** `MissingValuesCalculator`. */
  class MissingValuesCalculator {
    const columnNames: seq<string>
    const normalize: bool
    const split: Splitter
    const thresholdValues: ThresholdValues
    const alertFlag: AlertFlag
    const sqrt: real -> real
    const samplingErrorRange: real
    const lowerLimit: real
    const upperLimit: Float
    var samplingErrorComponents: map<string, real>
    var upperThresholds: map<string, Option<real>>
    var lowerThresholds: map<string, Option<real>>
    var result: Option<seq<Row<MissingResult>>>

    ghost predicate Valid()
      reads this
    {
      KeepsColumns(split) && lowerLimit == 0.0 && upperLimit == UpperLimit(normalize) &&
      Covers(columnNames, samplingErrorComponents, upperThresholds, lowerThresholds)
    }

    function RowSettings(): MissingSettings
      reads this
    {
      MissingSettings(normalize, sqrt, samplingErrorRange, alertFlag)
    }

    /** `__init__` once `column_names` has been accepted: sampling-error
        components and thresholds of 0 for every column, lower limit 0,
        upper limit 1 for a rate and NaN for a count. */
    constructor (columnNames: seq<string>, normalize: bool, split: Splitter,
                 thresholdValues: ThresholdValues, alertFlag: AlertFlag,
                 sqrt: real -> real, samplingErrorRange: real)
      requires KeepsColumns(split)
      ensures Valid()
      ensures this.columnNames == columnNames && this.normalize == normalize && this.split == split
      ensures this.thresholdValues == thresholdValues && this.alertFlag == alertFlag
      ensures this.sqrt == sqrt && this.samplingErrorRange == samplingErrorRange
      ensures lowerLimit == 0.0 && (normalize ==> upperLimit == Finite(1.0)) && (!normalize ==> upperLimit.NaN?)
      ensures forall c :: c in columnNames ==>
        samplingErrorComponents[c] == 0.0 && upperThresholds[c] == Some(0.0) && lowerThresholds[c] == Some(0.0)
      ensures result.None?
    {
      this.columnNames := columnNames;
      this.normalize := normalize;
      this.split := split;
      this.thresholdValues := thresholdValues;
      this.alertFlag := alertFlag;
      this.sqrt := sqrt;
      this.samplingErrorRange := samplingErrorRange;
      lowerLimit := 0.0;
      upperLimit := UpperLimit(normalize);
      samplingErrorComponents := map c | c in columnNames :: 0.0;
      upperThresholds := map c | c in columnNames :: Some(0.0);
      lowerThresholds := map c | c in columnNames :: Some(0.0);
      result := None;
    }

    /** `__init__` from the raw `column_names` argument. */
    static method Create(arg: ColumnNamesArg, normalize: bool, split: Splitter,
                         thresholdValues: ThresholdValues, alertFlag: AlertFlag,
                         sqrt: real -> real, samplingErrorRange: real)
      returns (r: Result<MissingValuesCalculator>)
      requires KeepsColumns(split)
      ensures r.Err? <==> ColumnNames(arg).Err?
      ensures r.Err? ==> r.error == ColumnNames(arg).error
      ensures r.Ok? ==> fresh(r.value) && r.value.Valid() && r.value.columnNames == ColumnNames(arg).value
    {
      var names := ColumnNames(arg);
      if names.Err? {
        return Err(names.error);
      }
      var calculator := new MissingValuesCalculator(names.value, normalize, split, thresholdValues, alertFlag,
                                                    sqrt, samplingErrorRange);
      r := Ok(calculator);
    }

    /** `_calculate`: the data checks, then one row per chunk in chunk
        order; the rows replace everything but the reference rows of an
        earlier result. */
    method Calculate(data: Frame) returns (r: Result<seq<Row<MissingResult>>>)
      requires Valid()
      modifies this
      ensures Valid()
      ensures samplingErrorComponents == old(samplingErrorComponents)
      ensures upperThresholds == old(upperThresholds) && lowerThresholds == old(lowerThresholds)
      ensures r.Err? <==> CheckData(columnNames, data).Fail? || IndexMismatch(columnNames, split(data))
      ensures CheckData(columnNames, data).Fail? ==> r == Err(CheckData(columnNames, data).error)
      ensures CheckData(columnNames, data).Pass? && IndexMismatch(columnNames, split(data)) ==>
        r == Err(LengthMismatch)
      ensures r.Err? ==> result == old(result)
      ensures r.Ok? ==> (result == Some(r.value) &&
        r.value == Combined(old(result), ChunkRows(split(data), columnNames, samplingErrorComponents,
                                                   upperThresholds, lowerThresholds, RowSettings())))
    {
      var check := CheckData(columnNames, data);
      if check.Fail? {
        return Err(check.error);
      }
      var chunks := split(data);
      var rows := ChunkRowsOf(chunks);
      WidthMatchesIndex(columnNames, Fields, |rows|);
      if FrameWidth(columnNames, Fields, |rows|) != |MultilevelIndex(columnNames, Fields)| {
        return Err(LengthMismatch);
      }
      var all := Combined(result, rows);
      result := Some(all);
      r := Ok(all);
    }

    /** `_calculate`'s loop: one row per chunk, in chunk order. */
    method ChunkRowsOf(chunks: seq<Chunk>) returns (rows: seq<Row<MissingResult>>)
      requires Valid()
      requires forall i, c :: 0 <= i < |chunks| && c in columnNames ==> c in chunks[i].data.columns
      ensures rows == ChunkRows(chunks, columnNames, samplingErrorComponents, upperThresholds, lowerThresholds,
                                RowSettings())
    {
      rows := [];
      var i := 0;
      while i < |chunks|
        invariant 0 <= i <= |chunks|
        invariant |rows| == i
        invariant forall k :: 0 <= k < i ==>
          rows[k] == ChunkRow(chunks[k], columnNames, samplingErrorComponents, upperThresholds, lowerThresholds,
                              RowSettings())
      {
        var row := ChunkRowOf(chunks[i]);
        rows := rows + [row];
        i := i + 1;
      }
    }

    /** The body of `_calculate`'s loop for one chunk: each requested
        column's result, in column order. */
    method ChunkRowOf(chunk: Chunk) returns (row: Row<MissingResult>)
      requires Valid() && forall c :: c in columnNames ==> c in chunk.data.columns
      ensures row == ChunkRow(chunk, columnNames, samplingErrorComponents, upperThresholds, lowerThresholds,
                              RowSettings())
    {
      var results: seq<MissingResult> := [];
      var j := 0;
      while j < |columnNames|
        invariant 0 <= j <= |columnNames|
        invariant |results| == j
        invariant forall k :: 0 <= k < j ==>
          results[k] == ColumnResult(Column(chunk.data, columnNames[k]), samplingErrorComponents[columnNames[k]],
                                     upperThresholds[columnNames[k]], lowerThresholds[columnNames[k]],
                                     normalize, sqrt, samplingErrorRange, alertFlag)
      {
        var c := columnNames[j];
        results := results + [ColumnResult(Column(chunk.data, c), samplingErrorComponents[c],
                                           upperThresholds[c], lowerThresholds[c],
                                           normalize, sqrt, samplingErrorRange, alertFlag)];
        j := j + 1;
      }
      row := Row(chunk.info, "analysis", results);
    }

    /** `_fit`: the data checks, then each column's reference missing rate
        and thresholds, then the reference rows. */
    method Fit(reference: Frame) returns (o: Outcome)
      requires Valid()
      modifies this
      ensures Valid()
      ensures o.Pass? <==> CheckData(columnNames, reference).Pass? && !IndexMismatch(columnNames, split(reference))
      ensures CheckData(columnNames, reference).Fail? ==> o == CheckData(columnNames, reference) && unchanged(this)
      ensures CheckData(columnNames, reference).Pass? ==> forall c :: c in columnNames ==>
        samplingErrorComponents[c] == CountMissing(Column(reference, c)) as real / reference.rows as real &&
        0.0 <= samplingErrorComponents[c] <= 1.0 &&
        (lowerThresholds[c], upperThresholds[c]) ==
          thresholdValues(ReferenceChunkValues(split(reference), c, normalize), lowerLimit, upperLimit)
      ensures CheckData(columnNames, reference).Pass? && IndexMismatch(columnNames, split(reference)) ==>
        o == Fail(LengthMismatch) && result == old(result)
      ensures o.Pass? ==> result == Some(MarkReference(Combined(old(result),
        ChunkRows(split(reference), columnNames, samplingErrorComponents, upperThresholds, lowerThresholds,
                  RowSettings()))))
    {
      var check := CheckData(columnNames, reference);
      if check.Fail? {
        return check;
      }
      LearnSamplingErrorComponents(reference);
      LearnThresholds(reference);
      var r := Calculate(reference);
      if r.Err? {
        return Fail(r.error);
      }
      result := Some(MarkReference(r.value));
      o := Pass;
    }

    /** The first loop of `_fit`: each column's reference missing rate. */
    method LearnSamplingErrorComponents(reference: Frame)
      requires Valid() && !IsEmpty(reference) && forall c :: c in columnNames ==> c in reference.columns
      modifies this
      ensures Valid()
      ensures upperThresholds == old(upperThresholds) && lowerThresholds == old(lowerThresholds)
      ensures result == old(result)
      ensures forall c :: c in columnNames ==>
        samplingErrorComponents[c] == CountMissing(Column(reference, c)) as real / reference.rows as real &&
        0.0 <= samplingErrorComponents[c] <= 1.0
    {
      var i := 0;
      while i < |columnNames|
        invariant 0 <= i <= |columnNames|
        invariant Valid()
        invariant upperThresholds == old(upperThresholds) && lowerThresholds == old(lowerThresholds)
        invariant result == old(result)
        invariant forall k :: 0 <= k < i ==>
          samplingErrorComponents[columnNames[k]] == SamplingErrorComponent(Column(reference, columnNames[k]), normalize)
      {
        var c := columnNames[i];
        samplingErrorComponents := samplingErrorComponents[c := SamplingErrorComponent(Column(reference, c), normalize)];
        i := i + 1;
      }
      forall c | c in columnNames
        ensures samplingErrorComponents[c] == CountMissing(Column(reference, c)) as real / reference.rows as real
        ensures 0.0 <= samplingErrorComponents[c] <= 1.0
      {
        var k :| 0 <= k < |columnNames| && columnNames[k] == c;
      }
    }

    /** The second loop of `_fit`: each column's thresholds from its values
        over the reference chunks. */
    method LearnThresholds(reference: Frame)
      requires Valid() && forall c :: c in columnNames ==> c in reference.columns
      modifies this
      ensures Valid()
      ensures samplingErrorComponents == old(samplingErrorComponents) && result == old(result)
      ensures forall c :: c in columnNames ==>
        (lowerThresholds[c], upperThresholds[c]) ==
          thresholdValues(ReferenceChunkValues(split(reference), c, normalize), lowerLimit, upperLimit)
    {
      var chunks := split(reference);
      var i := 0;
      while i < |columnNames|
        invariant 0 <= i <= |columnNames|
        invariant Valid()
        invariant samplingErrorComponents == old(samplingErrorComponents) && result == old(result)
        invariant forall k :: 0 <= k < i ==>
          (lowerThresholds[columnNames[k]], upperThresholds[columnNames[k]]) ==
            thresholdValues(ReferenceChunkValues(chunks, columnNames[k], normalize), lowerLimit, upperLimit)
      {
        var c := columnNames[i];
        var values := ReferenceChunkValues(chunks, c, normalize);
        var (lower, upper) := thresholdValues(values, lowerLimit, upperLimit);
        lowerThresholds := lowerThresholds[c := lower];
        upperThresholds := upperThresholds[c := upper];
        i := i + 1;
      }
      forall c | c in columnNames
        ensures (lowerThresholds[c], upperThresholds[c]) ==
          thresholdValues(ReferenceChunkValues(chunks, c, normalize), lowerLimit, upperLimit)
      {
        var k :| 0 <= k < |columnNames| && columnNames[k] == c;
      }
    }
  }

  /** `_create_multilevel_index`: seven chunk columns, then seven fields
      per column. */
  function MissingIndex(names: seq<string>): (r: seq<(string, string)>)
    ensures |r| == 7 + 7 * |names|
    ensures forall i :: 0 <= i < 7 ==> r[i] == ("chunk", ChunkColumnNames[i])
    ensures forall j, k :: 0 <= j < |names| && 0 <= k < 7 ==> r[7 + 7 * j + k] == (names[j], Fields[k])
  {
    var r := MultilevelIndex(names, Fields);
    assert forall j, k :: 0 <= j < |names| && 0 <= k < 7 ==> r[7 + 7 * j + k] == (names[j], Fields[k]) by {
      forall j, k | 0 <= j < |names| && 0 <= k < 7
        ensures r[7 + 7 * j + k] == (names[j], Fields[k])
      {
        MultilevelIndexAt(names, Fields, j, k);
        assert j * |Fields| == 7 * j;
      }
    }
    r
  }
}
