/** The unseen-values calculator: per categorical column, how many values
    of each chunk never occurred in the reference data. */
module UnseenValues {
  import opened Wrappers
  import opened Floats
  import opened Seqs
  import opened Base
  import opened DataQuality

  const Fields := ["value", "upper_threshold", "lower_threshold", "alert"]

  /** A column's entries in one result row. */
  datatype UnseenResult = UnseenResult(
    value: Float,
    upperThreshold: Option<real>,
    lowerThreshold: Option<real>,
    alert: bool)

  /** `set(reference_data[col].unique())`; a missing value is a value too. */
  function SeenValues(column: seq<Cell<Value>>): (r: set<Cell<Value>>)
    ensures forall x :: x in r <==> x in column
  {
    set x | x in column
  }

  /** `_calculate_unseen_value_stats`: the number of entries outside the
      seen set, or their share of the column when normalising (NaN for an
      empty column). It is 0 exactly when every entry was seen. */
  function UnseenStats(column: seq<Cell<Value>>, seen: set<Cell<Value>>, normalize: bool): (r: Float)
    ensures r.NaN? <==> normalize && column == []
    ensures r.Finite? ==> 0.0 <= r.v && (normalize ==> r.v <= 1.0) && r.v <= |column| as real
    ensures r.Finite? ==> (r.v == 0.0 <==> forall x :: x in column ==> x in seen)
    ensures !normalize ==> r == Finite((|column| - CountIn(column, seen)) as real)
    ensures normalize && r.Finite? ==> r.v * |column| as real == (|column| - CountIn(column, seen)) as real
  {
    var seenCount := CountIn(column, seen);
    var unseen := |column| - seenCount;
    assert unseen == 0 <==> forall x :: x in column ==> x in seen by {
      if unseen == 0 {
        CountInFull(column, seen);
      } else if forall x :: x in column ==> x in seen {
        CountInAll(column, seen);
      }
    }
    if normalize then
      var r := Ratio(unseen, |column|);
      assert r.Finite? ==> r.v <= |column| as real by {
        if r.Finite? {
          assert 1.0 <= |column| as real;
        }
      }
      r
    else Finite(unseen as real)
  }

  /** Any slice of the reference column holds only seen values: no unseen
      value in it. */
  lemma SliceOfReferenceHasNoUnseen(reference: seq<Cell<Value>>, lo: nat, hi: nat, normalize: bool)
    requires lo < hi <= |reference|
    ensures UnseenStats(reference[lo..hi], SeenValues(reference), normalize) == Finite(0.0)
  {
    var slice := reference[lo..hi];
    assert forall x :: x in slice ==> x in reference;
  }

  /** `_calculate_for_column`. */
  function ColumnResult(column: seq<Cell<Value>>, seen: set<Cell<Value>>, upper: Option<real>, lower: Option<real>,
                        normalize: bool, alertFlag: AlertFlag): (r: UnseenResult)
    ensures r.value == UnseenStats(column, seen, normalize)
    ensures r.upperThreshold == upper && r.lowerThreshold == lower
    ensures r.alert == alertFlag(r.value, upper, lower)
  {
    var value := UnseenStats(column, seen, normalize);
    UnseenResult(value, upper, lower, alertFlag(value, upper, lower))
  }

  /** The fitted state a row is computed from. */
  predicate Covers(names: seq<string>, seen: map<string, set<Cell<Value>>>,
                   upper: map<string, Option<real>>, lower: map<string, Option<real>>) {
    forall c :: c in names ==> c in seen && c in upper && c in lower
  }

  /** The row of one chunk: its own columns, period 'analysis', and one
      result per requested column, in order. */
  function ChunkRow(chunk: Chunk, names: seq<string>, seen: map<string, set<Cell<Value>>>,
                    upper: map<string, Option<real>>, lower: map<string, Option<real>>,
                    normalize: bool, alertFlag: AlertFlag): (r: Row<UnseenResult>)
    requires Covers(names, seen, upper, lower)
    requires forall c :: c in names ==> c in chunk.data.columns
    ensures r.chunk == chunk.info && r.period == "analysis" && |r.results| == |names|
  {
    Row(chunk.info, "analysis",
        seq(|names|, j requires 0 <= j < |names| =>
          ColumnResult(Column(chunk.data, names[j]), seen[names[j]], upper[names[j]], lower[names[j]],
                       normalize, alertFlag)))
  }

  /** One row per chunk, in chunk order. */
  function ChunkRows(chunks: seq<Chunk>, names: seq<string>, seen: map<string, set<Cell<Value>>>,
                     upper: map<string, Option<real>>, lower: map<string, Option<real>>,
                     normalize: bool, alertFlag: AlertFlag): (r: seq<Row<UnseenResult>>)
    requires Covers(names, seen, upper, lower)
    requires forall i, c :: 0 <= i < |chunks| && c in names ==> c in chunks[i].data.columns
    ensures |r| == |chunks|
    ensures forall i :: 0 <= i < |chunks| ==>
      r[i].chunk == chunks[i].info && r[i].period == "analysis" && |r[i].results| == |names|
  {
    seq(|chunks|, i requires 0 <= i < |chunks| => ChunkRow(chunks[i], names, seen, upper, lower, normalize, alertFlag))
  }

  /** The values of one column over the reference chunks. */
  function ReferenceChunkValues(chunks: seq<Chunk>, c: string, seen: set<Cell<Value>>, normalize: bool)
    : (r: seq<Float>)
    requires forall i :: 0 <= i < |chunks| ==> c in chunks[i].data.columns
    ensures |r| == |chunks|
    ensures forall i :: 0 <= i < |chunks| ==> r[i] == UnseenStats(Column(chunks[i].data, c), seen, normalize)
  {
    seq(|chunks|, i requires 0 <= i < |chunks| => UnseenStats(Column(chunks[i].data, c), seen, normalize))
  }

  /** The requested columns all have a categorical dtype. */
  predicate AllCategorical(f: Frame, names: seq<string>)
    requires forall c :: c in names ==> c in f.columns
  {
    forall c :: c in names ==> IsCategorical(f.dtypes[c])
  }

  const NotCategoricalMessage := "Specified columns_names for UnseenValuesCalculator must all be categorical.\nContinuous columns found:\n"

  /** `UnseenValuesCalculator`. */
  class UnseenValuesCalculator {
    const columnNames: seq<string>
    const normalize: bool
    const split: Splitter
    const thresholdValues: ThresholdValues
    const alertFlag: AlertFlag
    const lowerLimit: real
    const upperLimit: Float
    var upperThresholds: map<string, Option<real>>
    var lowerThresholds: map<string, Option<real>>
    var seen: map<string, set<Cell<Value>>>
    var result: Option<seq<Row<UnseenResult>>>

    ghost predicate Valid()
      reads this
    {
      KeepsColumns(split) && lowerLimit == 0.0 && upperLimit == UpperLimit(normalize) &&
      Covers(columnNames, seen, upperThresholds, lowerThresholds)
    }

    /** `__init__` once `column_names` has been accepted: thresholds of 0
        and an empty seen set for every column, lower limit 0, upper limit
        1 for a rate and NaN for a count. */
    constructor (columnNames: seq<string>, normalize: bool, split: Splitter,
                 thresholdValues: ThresholdValues, alertFlag: AlertFlag)
      requires KeepsColumns(split)
      ensures Valid()
      ensures this.columnNames == columnNames && this.normalize == normalize && this.split == split
      ensures this.thresholdValues == thresholdValues && this.alertFlag == alertFlag
      ensures lowerLimit == 0.0 && (normalize ==> upperLimit == Finite(1.0)) && (!normalize ==> upperLimit.NaN?)
      ensures forall c :: c in columnNames ==>
        upperThresholds[c] == Some(0.0) && lowerThresholds[c] == Some(0.0) && seen[c] == {}
      ensures result.None?
    {
      this.columnNames := columnNames;
      this.normalize := normalize;
      this.split := split;
      this.thresholdValues := thresholdValues;
      this.alertFlag := alertFlag;
      lowerLimit := 0.0;
      upperLimit := UpperLimit(normalize);
      upperThresholds := map c | c in columnNames :: Some(0.0);
      lowerThresholds := map c | c in columnNames :: Some(0.0);
      seen := map c | c in columnNames :: {};
      result := None;
    }

    /** `__init__` from the raw `column_names` argument. */
    static method Create(arg: ColumnNamesArg, normalize: bool, split: Splitter,
                         thresholdValues: ThresholdValues, alertFlag: AlertFlag)
      returns (r: Result<UnseenValuesCalculator>)
      requires KeepsColumns(split)
      ensures r.Err? <==> ColumnNames(arg).Err?
      ensures r.Err? ==> r.error == ColumnNames(arg).error
      ensures r.Ok? ==> fresh(r.value) && r.value.Valid() && r.value.columnNames == ColumnNames(arg).value
    {
      var names := ColumnNames(arg);
      if names.Err? {
        return Err(names.error);
      }
      var calculator := new UnseenValuesCalculator(names.value, normalize, split, thresholdValues, alertFlag);
      r := Ok(calculator);
    }

    /** `_calculate`: the data checks, then one row per chunk in chunk
        order; the rows replace everything but the reference rows of an
        earlier result. */
    method Calculate(data: Frame) returns (r: Result<seq<Row<UnseenResult>>>)
      requires Valid()
      modifies this
      ensures Valid()
      ensures seen == old(seen) && upperThresholds == old(upperThresholds) && lowerThresholds == old(lowerThresholds)
      ensures r.Err? <==> CheckData(columnNames, data).Fail? || IndexMismatch(columnNames, split(data))
      ensures CheckData(columnNames, data).Fail? ==> r == Err(CheckData(columnNames, data).error)
      ensures CheckData(columnNames, data).Pass? && IndexMismatch(columnNames, split(data)) ==>
        r == Err(LengthMismatch)
      ensures r.Err? ==> result == old(result)
      ensures r.Ok? ==> (result == Some(r.value) &&
        r.value == Combined(old(result), ChunkRows(split(data), columnNames, seen, upperThresholds, lowerThresholds,
                                                   normalize, alertFlag)))
    {
      var check := CheckData(columnNames, data);
      if check.Fail? {
        return Err(check.error);
      }
      var chunks := split(data);
      var rows := ChunkRowsOf(chunks);
      WidthMatchesIndex(columnNames, Fields, |rows|);
      if FrameWidth(columnNames, Fields, |rows|) != |MultilevelIndex(columnNames, Fields)| {
        return Err(LengthMismatch);
      }
      var all := Combined(result, rows);
      result := Some(all);
      r := Ok(all);
    }

    /** `_calculate`'s loop: one row per chunk, in chunk order. */
    method ChunkRowsOf(chunks: seq<Chunk>) returns (rows: seq<Row<UnseenResult>>)
      requires Valid()
      requires forall i, c :: 0 <= i < |chunks| && c in columnNames ==> c in chunks[i].data.columns
      ensures rows == ChunkRows(chunks, columnNames, seen, upperThresholds, lowerThresholds, normalize, alertFlag)
    {
      rows := [];
      var i := 0;
      while i < |chunks|
        invariant 0 <= i <= |chunks|
        invariant |rows| == i
        invariant forall k :: 0 <= k < i ==>
          rows[k] == ChunkRow(chunks[k], columnNames, seen, upperThresholds, lowerThresholds, normalize, alertFlag)
      {
        var row := ChunkRowOf(chunks[i]);
        rows := rows + [row];
        i := i + 1;
      }
    }

    /** The body of `_calculate`'s loop for one chunk: each requested
        column's result, in column order. */
    method ChunkRowOf(chunk: Chunk) returns (row: Row<UnseenResult>)
      requires Valid() && forall c :: c in columnNames ==> c in chunk.data.columns
      ensures row == ChunkRow(chunk, columnNames, seen, upperThresholds, lowerThresholds, normalize, alertFlag)
    {
      var results: seq<UnseenResult> := [];
      var j := 0;
      while j < |columnNames|
        invariant 0 <= j <= |columnNames|
        invariant |results| == j
        invariant forall k :: 0 <= k < j ==>
          results[k] == ColumnResult(Column(chunk.data, columnNames[k]), seen[columnNames[k]],
                                     upperThresholds[columnNames[k]], lowerThresholds[columnNames[k]],
                                     normalize, alertFlag)
      {
        var c := columnNames[j];
        results := results + [ColumnResult(Column(chunk.data, c), seen[c], upperThresholds[c], lowerThresholds[c],
                                           normalize, alertFlag)];
        j := j + 1;
      }
      row := Row(chunk.info, "analysis", results);
    }

    /** `_fit`: the data checks and the categorical check, then the seen
        values and the thresholds of every column, then the reference rows. */
    method Fit(reference: Frame) returns (o: Outcome)
      requires Valid()
      modifies this
      ensures Valid()
      ensures o.Pass? <==>
        CheckData(columnNames, reference).Pass? && AllCategorical(reference, columnNames) &&
        !IndexMismatch(columnNames, split(reference))
      ensures CheckData(columnNames, reference).Fail? ==> o == CheckData(columnNames, reference) && unchanged(this)
      ensures CheckData(columnNames, reference).Pass? && !AllCategorical(reference, columnNames) ==>
        o.Fail? && o.error.InvalidArguments? && unchanged(this)
      ensures CheckData(columnNames, reference).Pass? && AllCategorical(reference, columnNames) ==>
        forall c :: c in columnNames ==>
          seen[c] == SeenValues(Column(reference, c)) &&
          (lowerThresholds[c], upperThresholds[c]) ==
            thresholdValues(ReferenceChunkValues(split(reference), c, seen[c], normalize), lowerLimit, upperLimit)
      ensures (CheckData(columnNames, reference).Pass? && AllCategorical(reference, columnNames) &&
               IndexMismatch(columnNames, split(reference))) ==>
        o == Fail(LengthMismatch) && result == old(result)
      ensures o.Pass? ==> result == Some(MarkReference(Combined(old(result),
        ChunkRows(split(reference), columnNames, seen, upperThresholds, lowerThresholds, normalize, alertFlag))))
    {
      var check := CheckData(columnNames, reference);
      if check.Fail? {
        return check;
      }
      var categoricalCheck := CheckCategorical(reference);
      if categoricalCheck.Fail? {
        return categoricalCheck;
      }
      LearnSeenValues(reference);
      LearnThresholds(reference);
      var r := Calculate(reference);
      if r.Err? {
        return Fail(r.error);
      }
      result := Some(MarkReference(r.value));
      o := Pass;
    }

    /** The categorical check of `_fit`: the continuous columns among the
        requested ones are reported. */
    method CheckCategorical(reference: Frame) returns (o: Outcome)
      requires forall c :: c in columnNames ==> c in reference.columns
      ensures o.Pass? <==> AllCategorical(reference, columnNames)
      ensures o.Fail? ==> o.error.InvalidArguments?
    {
      var (continuous, categorical) := SplitFeaturesByType(reference.dtypes, columnNames);
      var nameSet := set x | x in columnNames;
      var categoricalSet := set x | x in categorical;
      if nameSet != categoricalSet {
        assert !AllCategorical(reference, columnNames) by {
          var c :| c in nameSet && c !in categoricalSet;
        }
        return Fail(InvalidArguments(NotCategoricalMessage + NamesRepr(continuous)));
      }
      assert AllCategorical(reference, columnNames) by {
        forall c | c in columnNames
          ensures IsCategorical(reference.dtypes[c])
        {
          assert c in nameSet;
        }
      }
      o := Pass;
    }

    /** The first loop of `_fit`: each column's seen set is the set of its
        reference values. */
    method LearnSeenValues(reference: Frame)
      requires Valid() && forall c :: c in columnNames ==> c in reference.columns
      modifies this
      ensures Valid()
      ensures upperThresholds == old(upperThresholds) && lowerThresholds == old(lowerThresholds)
      ensures result == old(result)
      ensures forall c :: c in columnNames ==> seen[c] == SeenValues(Column(reference, c))
    {
      var i := 0;
      while i < |columnNames|
        invariant 0 <= i <= |columnNames|
        invariant Valid()
        invariant upperThresholds == old(upperThresholds) && lowerThresholds == old(lowerThresholds)
        invariant result == old(result)
        invariant forall k :: 0 <= k < i ==> seen[columnNames[k]] == SeenValues(Column(reference, columnNames[k]))
      {
        var c := columnNames[i];
        seen := seen[c := SeenValues(Column(reference, c))];
        i := i + 1;
      }
      forall c | c in columnNames
        ensures seen[c] == SeenValues(Column(reference, c))
      {
        var k :| 0 <= k < |columnNames| && columnNames[k] == c;
      }
    }

    /** The second loop of `_fit`: each column's thresholds from its values
        over the reference chunks. */
    method LearnThresholds(reference: Frame)
      requires Valid() && forall c :: c in columnNames ==> c in reference.columns
      modifies this
      ensures Valid()
      ensures seen == old(seen) && result == old(result)
      ensures forall c :: c in columnNames ==>
        (lowerThresholds[c], upperThresholds[c]) ==
          thresholdValues(ReferenceChunkValues(split(reference), c, seen[c], normalize), lowerLimit, upperLimit)
    {
      var chunks := split(reference);
      var i := 0;
      while i < |columnNames|
        invariant 0 <= i <= |columnNames|
        invariant Valid()
        invariant seen == old(seen) && result == old(result)
        invariant forall k :: 0 <= k < i ==>
          (lowerThresholds[columnNames[k]], upperThresholds[columnNames[k]]) ==
            thresholdValues(ReferenceChunkValues(chunks, columnNames[k], seen[columnNames[k]], normalize),
                            lowerLimit, upperLimit)
      {
        var c := columnNames[i];
        var values := ReferenceChunkValues(chunks, c, seen[c], normalize);
        var (lower, upper) := thresholdValues(values, lowerLimit, upperLimit);
        lowerThresholds := lowerThresholds[c := lower];
        upperThresholds := upperThresholds[c := upper];
        i := i + 1;
      }
      forall c | c in columnNames
        ensures (lowerThresholds[c], upperThresholds[c]) ==
          thresholdValues(ReferenceChunkValues(chunks, c, seen[c], normalize), lowerLimit, upperLimit)
      {
        var k :| 0 <= k < |columnNames| && columnNames[k] == c;
      }
    }
  }

  /** Python's printed form of a list of names: `['a', 'b']`. Quotes and
      backslashes inside a name are not escaped as `repr` would. */
  function NamesRepr(names: seq<string>): string {
    "[" + QuotedNames(names) + "]"
  }

  function QuotedNames(names: seq<string>): string {
    if names == [] then ""
    else if |names| == 1 then "'" + names[0] + "'"
    else QuotedNames(names[..|names| - 1]) + ", '" + names[|names| - 1] + "'"
  }

  /** `_create_multilevel_index`: seven chunk columns, then four fields
      per column. */
  function UnseenIndex(names: seq<string>): (r: seq<(string, string)>)
    ensures |r| == 7 + 4 * |names|
    ensures forall i :: 0 <= i < 7 ==> r[i] == ("chunk", ChunkColumnNames[i])
    ensures forall j, k :: 0 <= j < |names| && 0 <= k < 4 ==> r[7 + 4 * j + k] == (names[j], Fields[k])
  {
    var r := MultilevelIndex(names, Fields);
    assert forall j, k :: 0 <= j < |names| && 0 <= k < 4 ==> r[7 + 4 * j + k] == (names[j], Fields[k]) by {
      forall j, k | 0 <= j < |names| && 0 <= k < 4
        ensures r[7 + 4 * j + k] == (names[j], Fields[k])
      {
        MultilevelIndexAt(names, Fields, j, k);
        assert j * |Fields| == 4 * j;
      }
    }
    r
  }
}
