/** What the unseen-values and missing-values calculators share: the data
    frame they read, the chunks a chunker cuts it into, the validation of
    the `column_names` argument, the rows of a result and the column index
    of a result table. */
module DataQuality {
  import opened Wrappers
  import opened Floats
  import opened Seqs
  import opened Base

  /** A data frame: its column names in order, each column's dtype and
      entries, and its number of rows. */
  datatype FrameData = FrameData(
    columns: seq<string>,
    dtypes: map<string, DType>,
    data: map<string, seq<Cell<Value>>>,
    rows: nat)

  predicate FrameWellFormed(f: FrameData) {
    forall c :: c in f.columns ==> c in f.dtypes && c in f.data && |f.data[c]| == f.rows
  }

  /** Every listed column has a dtype and one entry per row. */
  type Frame = f: FrameData | FrameWellFormed(f) witness FrameData([], map[], map[], 0)

  /** `DataFrame.empty`: no rows or no columns. */
  predicate IsEmpty(f: Frame) {
    f.rows == 0 || f.columns == []
  }

  /** `df[c]`. */
  function Column(f: Frame, c: string): (r: seq<Cell<Value>>)
    requires c in f.columns
    ensures |r| == f.rows
  {
    f.data[c]
  }

  /** What a chunk records about itself besides its rows. */
  datatype ChunkInfo = ChunkInfo(
    key: string,
    index: int,
    startIndex: int,
    endIndex: int,
    startDatetime: Option<string>,
    endDatetime: Option<string>)

  datatype Chunk = Chunk(info: ChunkInfo, data: Frame)

  /** `Chunker.split`. */
  type Splitter = Frame -> seq<Chunk>

  /** A chunker cuts a frame into pieces of its rows, so each chunk has the
      frame's columns. */
  ghost predicate KeepsColumns(split: Splitter) {
    forall f: Frame, i :: 0 <= i < |split(f)| ==> split(f)[i].data.columns == f.columns
  }

  /** `calculate_threshold_values` with the calculator's threshold and
      `override_using_none=True`: the reference chunk values and the lower
      and upper limits give the (lower, upper) thresholds. */
  type ThresholdValues = (seq<Float>, real, Float) -> (Option<real>, Option<real>)

  /** `_add_alert_flag` on a value and its upper and lower thresholds. */
  type AlertFlag = (Float, Option<real>, Option<real>) -> bool

  /** The upper threshold limit: 1 for a rate, NaN for a count. */
  function UpperLimit(normalize: bool): (r: Float)
    ensures normalize <==> r == Finite(1.0)
    ensures !normalize <==> r.NaN?
  {
    if normalize then Finite(1.0) else NaN
  }

  /** A Python object in a `column_names` list, with its printed form. */
  datatype PyObject = Str(s: string) | NonStr(repr: string)

  /** The `column_names` argument. */
  datatype ColumnNamesArg =
    | NameArg(name: string)
    | ListArg(items: seq<PyObject>)
    | OtherArg(repr: string)

  const ElementMessage := "column_names elements should be either a column name string or a list of strings, found\n"

  const OtherMessageStart := "column_names should be either a column name string or a list of columns names strings, found\n"

  /** The message for an argument that is neither a string nor a list, as
      written: a plain string whose placeholder is never filled in. */
  function OtherTypeMessageAsWritten(repr: string): string {
    OtherMessageStart + "{column_names}"
  }

  /** Every argument gets the same message: the offending value is never
      shown. */
  lemma OtherTypeMessageAsWrittenIgnoresValue()
    ensures OtherTypeMessageAsWritten("42") == OtherTypeMessageAsWritten("None")
  {
  }

  /** The message with the offending value filled in, as the neighbouring
      message for a list element does. */
  function OtherTypeMessage(repr: string): (m: string)
    ensures |m| == |OtherMessageStart| + |repr|
    ensures m[..|OtherMessageStart|] == OtherMessageStart && m[|OtherMessageStart|..] == repr
  {
    OtherMessageStart + repr
  }

  /** Different arguments get different messages. */
  lemma OtherTypeMessageShowsValue(a: string, b: string)
    requires a != b
    ensures OtherTypeMessage(a) != OtherTypeMessage(b)
  {
    assert OtherTypeMessage(a)[|OtherMessageStart|..] == a;
    assert OtherTypeMessage(b)[|OtherMessageStart|..] == b;
  }

  /** The list elements, checked in order: the first non-string one is
      reported. */
  function ListNames(items: seq<PyObject>): (r: Result<seq<string>>)
    ensures r.Ok? <==> forall i :: 0 <= i < |items| ==> items[i].Str?
    ensures r.Ok? ==> |r.value| == |items| && forall i :: 0 <= i < |items| ==> r.value[i] == items[i].s
    ensures r.Err? ==> exists i :: (0 <= i < |items| && items[i].NonStr? &&
      (forall k :: 0 <= k < i ==> items[k].Str?) &&
      r.error == InvalidArguments(ElementMessage + items[i].repr))
  {
    if items == [] then Ok([])
    else if items[0].NonStr? then Err(InvalidArguments(ElementMessage + items[0].repr))
    else
      match ListNames(items[1..])
      case Err(e) =>
        assert forall i :: 1 <= i < |items| ==> items[i] == items[1..][i - 1];
        Err(e)
      case Ok(rest) =>
        assert forall i :: 1 <= i < |items| ==> items[i] == items[1..][i - 1];
        Ok([items[0].s] + rest)
  }

  /** The constructors' handling of `column_names`: a string becomes a
      one-element list, a list must hold only strings, anything else is
      rejected with the message as written. */
  function ColumnNames(arg: ColumnNamesArg): (r: Result<seq<string>>)
    ensures arg.NameArg? ==> r == Ok([arg.name])
    ensures arg.ListArg? ==> r == ListNames(arg.items)
    ensures arg.OtherArg? ==> r == Err(InvalidArguments(OtherTypeMessageAsWritten(arg.repr)))
    ensures r.Err? ==> r.error.InvalidArguments?
  {
    match arg
    case NameArg(name) => Ok([name])
    case ListArg(items) => ListNames(items)
    case OtherArg(repr) => Err(InvalidArguments(OtherTypeMessageAsWritten(repr)))
  }

  /** A list of strings is accepted unchanged. */
  lemma ColumnNamesOfStrings(names: seq<string>)
    ensures ColumnNames(ListArg(seq(|names|, i requires 0 <= i < |names| => Str(names[i])))) == Ok(names)
  {
    var items := seq(|names|, i requires 0 <= i < |names| => Str(names[i]));
    assert forall i :: 0 <= i < |items| ==> items[i].Str?;
    var r := ListNames(items);
    assert r.value == names;
  }

  const EmptyMessage := "data contains no rows. Please provide a valid data set."

  /** The checks both `_fit` and `_calculate` start with: no empty frame,
      and every requested column present. */
  function CheckData(names: seq<string>, f: Frame): (o: Outcome)
    ensures o.Pass? <==> !IsEmpty(f) && forall c :: c in names ==> c in f.columns
    ensures IsEmpty(f) ==> o == Fail(InvalidArguments(EmptyMessage))
    ensures o.Fail? ==> o.error.InvalidArguments?
  {
    if IsEmpty(f) then Fail(InvalidArguments(EmptyMessage))
    else ListMissing(names, f.columns)
  }

  /** One row of a result table: the chunk's own columns, its period and
      the results of each requested column, in column order. */
  datatype Row<R> = Row(chunk: ChunkInfo, period: string, results: seq<R>)

  predicate IsReferenceRow<R>(x: Row<R>) {
    x.period == "reference"
  }

  /** `result.filter(period='reference')`: the reference rows, in order,
      each as often as it occurs. */
  function ReferenceRows<R(==,!new)>(rows: seq<Row<R>>): (r: seq<Row<R>>)
    ensures |r| <= |rows|
    ensures forall x :: x in r <==> x in rows && x.period == "reference"
    ensures IsSubsequence(r, rows)
    ensures forall x :: Count(r, x) == if x.period == "reference" then Count(rows, x) else 0
  {
    FilterIsSubsequence(rows, IsReferenceRow);
    assert forall x :: (Count(Filter(rows, IsReferenceRow), x) ==
                        if x.period == "reference" then Count(rows, x) else 0) by {
      forall x {
        FilterCount(rows, IsReferenceRow, x);
      }
    }
    Filter(rows, IsReferenceRow)
  }

  /** Rows that are all reference rows are kept whole. */
  lemma ReferenceRowsOfReference<R(!new)>(rows: seq<Row<R>>)
    requires forall i :: 0 <= i < |rows| ==> rows[i].period == "reference"
    ensures ReferenceRows(rows) == rows
  {
    FilterAll(rows, IsReferenceRow);
  }

  /** `result.data[('chunk', 'period')] = 'reference'`. */
  function MarkReference<R>(rows: seq<Row<R>>): (r: seq<Row<R>>)
    ensures |r| == |rows|
    ensures forall i :: 0 <= i < |rows| ==> r[i] == rows[i].(period := "reference")
  {
    seq(|rows|, i requires 0 <= i < |rows| => rows[i].(period := "reference"))
  }

  /** The new rows appended to the reference rows of an earlier result, or
      the new rows alone when there is none. */
  function Combined<R(==,!new)>(previous: Option<seq<Row<R>>>, rows: seq<Row<R>>): (r: seq<Row<R>>)
    ensures previous.None? ==> r == rows
    ensures previous.Some? ==> r == ReferenceRows(previous.value) + rows
    ensures r[|r| - |rows|..] == rows
  {
    if previous.None? then rows else ReferenceRows(previous.value) + rows
  }

  /** The number of columns of `pd.DataFrame(rows)`: none when there is no
      row, otherwise the chunk's seven and one per distinct row key
      `f'{column}_{field}'`. No field name ends with `_` followed by another
      field name, so two keys collide exactly when their columns are equal. */
  function FrameWidth(names: seq<string>, fields: seq<string>, rowCount: nat): nat {
    if rowCount == 0 then 0 else 7 + |Distinct(names)| * |fields|
  }

  /** `res.columns = result_index` raises ValueError ("Length mismatch"):
      no chunk at all, or a column requested twice. */
  predicate IndexMismatch(names: seq<string>, chunks: seq<Chunk>) {
    chunks == [] || !NoDuplicates(names)
  }

  const LengthMismatch := Raised("ValueError")

  /** The frame of rows fits the multilevel index exactly when there is a
      row and no column is requested twice. */
  lemma WidthMatchesIndex(names: seq<string>, fields: seq<string>, rowCount: nat)
    requires fields != []
    ensures FrameWidth(names, fields, rowCount) == |MultilevelIndex(names, fields)| <==>
      rowCount > 0 && NoDuplicates(names)
  {
    DistinctLength(names);
    if rowCount > 0 && !NoDuplicates(names) {
      var d := |Distinct(names)|;
      assert d < |names|;
      assert d * |fields| < |names| * |fields| by {
        MulLessNat(d, |names|, |fields|);
      }
    }
  }

  const ChunkColumnNames := ["key", "chunk_index", "start_index", "end_index", "start_date", "end_date", "period"]

  /** The (column, field) pairs of every column, column after column. */
  function ColumnTuples(names: seq<string>, fields: seq<string>): (r: seq<(string, string)>)
    ensures |r| == |names| * |fields|
  {
    if names == [] then []
    else
      var front := ColumnTuples(names[..|names| - 1], fields);
      var last := names[|names| - 1];
      assert |front| + |fields| == |names| * |fields| by {
        assert (|names| - 1) * |fields| + |fields| == |names| * |fields|;
      }
      front + seq(|fields|, k requires 0 <= k < |fields| => (last, fields[k]))
  }

  /** Field k of column j sits at position j * |fields| + k. */
  lemma {:induction false} ColumnTuplesAt(names: seq<string>, fields: seq<string>, j: nat, k: nat)
    requires j < |names| && k < |fields|
    ensures j * |fields| + k < |names| * |fields|
    ensures ColumnTuples(names, fields)[j * |fields| + k] == (names[j], fields[k])
    decreases |names|
  {
    var n := |names|;
    var front := names[..n - 1];
    assert (n - 1) * |fields| + |fields| == n * |fields|;
    if j < n - 1 {
      ColumnTuplesAt(front, fields, j, k);
    } else {
      assert j * |fields| == (n - 1) * |fields|;
    }
  }

  /** `_create_multilevel_index`: the chunk's seven columns, then each
      requested column's fields. */
  function MultilevelIndex(names: seq<string>, fields: seq<string>): (r: seq<(string, string)>)
    ensures |r| == 7 + |names| * |fields|
    ensures forall i :: 0 <= i < 7 ==> r[i] == ("chunk", ChunkColumnNames[i])
    ensures r[7..] == ColumnTuples(names, fields)
  {
    var chunkTuples := seq(7, i requires 0 <= i < 7 => ("chunk", ChunkColumnNames[i]));
    chunkTuples + ColumnTuples(names, fields)
  }

  /** Field k of column j comes after the chunk's columns and the fields
      of the columns before it. */
  lemma MultilevelIndexAt(names: seq<string>, fields: seq<string>, j: nat, k: nat)
    requires j < |names| && k < |fields|
    ensures 7 + j * |fields| + k < |MultilevelIndex(names, fields)|
    ensures MultilevelIndex(names, fields)[7 + j * |fields| + k] == (names[j], fields[k])
  {
    ColumnTuplesAt(names, fields, j, k);
  }
}
