/** The chi-squared contingency statistic between the reference's and a
    chunk's value counts. The method remembers the p-value of the last
    calculation, and its `alert` rule reads only that p-value. */
module Chi2 {
  import opened Wrappers
  import opened Floats
  import opened Seqs
  import opened Base
  import opened MethodBase

  /** `series.value_counts()` with zero counts dropped: each distinct
      value with its (positive) number of occurrences. */
  function ValueCounts(xs: seq<Value>): (r: map<Value, nat>)
    ensures forall v :: v in r <==> v in xs
    ensures forall v :: v in r ==> r[v] == Count(xs, v) && r[v] > 0
  {
    map v | v in xs :: Count(xs, v)
  }

  function CountOr0(m: map<Value, nat>, v: Value): nat {
    if v in m then m[v] else 0
  }

  /** `pd.concat([ref_counts, data_counts], axis=1).fillna(0)`: one row per
      value seen in either, with the reference and the chunk count. */
  function Contingency(ref: map<Value, nat>, data: map<Value, nat>): (t: map<Value, (nat, nat)>)
    ensures t.Keys == ref.Keys + data.Keys
    ensures forall v :: v in t ==> t[v] == (CountOr0(ref, v), CountOr0(data, v))
  {
    map v | v in ref.Keys + data.Keys :: (CountOr0(ref, v), CountOr0(data, v))
  }

  /** Each column of the table gives back the counts it was built from:
      the rows with a non-zero entry are exactly that side's values. */
  lemma ContingencyColumns(ref: map<Value, nat>, data: map<Value, nat>)
    requires forall v :: v in ref ==> ref[v] > 0
    requires forall v :: v in data ==> data[v] > 0
    ensures var t := Contingency(ref, data);
      (map v | v in t && t[v].0 > 0 :: t[v].0) == ref &&
      (map v | v in t && t[v].1 > 0 :: t[v].1) == data
  {
    var t := Contingency(ref, data);
    assert (map v | v in t && t[v].0 > 0 :: t[v].0).Keys == ref.Keys;
    assert (map v | v in t && t[v].1 > 0 :: t[v].1).Keys == data.Keys;
  }

  /** SciPy's `chi2_contingency` on the table: the statistic and the
      p-value, or the exception it raises. */
  type Chi2Fn = map<Value, (nat, nat)> -> Result<(Float, Float)>

  /** `_calc_chi2` on a chunk with its missing values stripped. */
  function Chi2Of(chi2: Chi2Fn, refCounts: map<Value, nat>, data: seq<Cell<Value>>): Result<(Float, Float)> {
    chi2(Contingency(refCounts, ValueCounts(RemoveMissing(data))))
  }

  /** The p-value left behind by calculating chunk after chunk until the
      first exception. */
  function PValueAfter(chi2: Chi2Fn, refCounts: map<Value, nat>, chunks: seq<seq<Cell<Value>>>, p: Option<Float>)
    : (r: Option<Float>)
    ensures chunks == [] || Chi2Of(chi2, refCounts, chunks[0]).Err? ==> r == p
    ensures r == p || (exists i :: 0 <= i < |chunks| && Chi2Of(chi2, refCounts, chunks[i]).Ok? &&
                                   r == Some(Chi2Of(chi2, refCounts, chunks[i]).value.1))
    decreases |chunks|
  {
    if chunks == [] then p
    else
      var t := Chi2Of(chi2, refCounts, chunks[0]);
      if t.Err? then p
      else
        var rest := PValueAfter(chi2, refCounts, chunks[1..], Some(t.value.1));
        assert rest == p || (exists i :: 0 <= i < |chunks| && Chi2Of(chi2, refCounts, chunks[i]).Ok? &&
                                         rest == Some(Chi2Of(chi2, refCounts, chunks[i]).value.1)) by {
          if rest != Some(t.value.1) {
            var j :| 0 <= j < |chunks[1..]| && Chi2Of(chi2, refCounts, chunks[1..][j]).Ok? &&
              rest == Some(Chi2Of(chi2, refCounts, chunks[1..][j]).value.1);
            assert chunks[1..][j] == chunks[j + 1];
          }
        }
        rest
  }

  /** When every chunk succeeds, the p-value kept is the last chunk's. */
  lemma {:induction false} PValueAfterLast(chi2: Chi2Fn, refCounts: map<Value, nat>, chunks: seq<seq<Cell<Value>>>,
                                            p: Option<Float>)
    requires chunks != []
    requires forall i :: 0 <= i < |chunks| ==> Chi2Of(chi2, refCounts, chunks[i]).Ok?
    ensures PValueAfter(chi2, refCounts, chunks, p) == Some(Chi2Of(chi2, refCounts, chunks[|chunks| - 1]).value.1)
    decreases |chunks|
  {
    var t := Chi2Of(chi2, refCounts, chunks[0]);
    if |chunks| > 1 {
      assert forall i :: 0 <= i < |chunks| - 1 ==> chunks[1..][i] == chunks[i + 1];
      PValueAfterLast(chi2, refCounts, chunks[1..], Some(t.value.1));
    }
  }

  /** The alert rule of this method: a p-value below 0.05. */
  const PValueLimit := 0.05

  /** `Chi2Statistic`. */
  class Chi2Statistic {
    const info: MethodInfo
    const threshold: ThresholdFn
    const chi2: Chi2Fn
    var band: Band
    var refCounts: Option<map<Value, nat>>
    var pValue: Option<Float>

    ghost predicate Valid()
      reads this
    {
      info == InfoOf(Chi2)
    }

    constructor (threshold: ThresholdFn, chi2: Chi2Fn)
      ensures Valid()
      ensures band == NoBand && refCounts == None && pValue == None
      ensures this.threshold == threshold && this.chi2 == chi2
    {
      info := InfoOf(Chi2);
      this.threshold := threshold;
      this.chi2 := chi2;
      band := NoBand;
      refCounts := None;
      pValue := None;
    }

    function Statistic(counts: map<Value, nat>, data: seq<Cell<Value>>): (r: Result<Float>)
      ensures r.Ok? <==> Chi2Of(chi2, counts, data).Ok?
    {
      var t :- Chi2Of(chi2, counts, data);
      Ok(t.0)
    }

    function ChunkStatistics(counts: map<Value, nat>, chunks: seq<seq<Cell<Value>>>): Result<seq<Float>> {
      ChunkResults((d: seq<Cell<Value>>) => Statistic(counts, d), chunks)
    }

    /** `calculate`: NotFitted before `fit`; otherwise the statistic, with
        the p-value stored for `alert`. */
    method Calculate(data: seq<Cell<Value>>) returns (r: Result<Float>)
      modifies this
      ensures band == old(band) && refCounts == old(refCounts)
      ensures refCounts.None? ==> r.Err? && r.error.NotFitted? && pValue == old(pValue)
      ensures refCounts.Some? ==>
        var t := Chi2Of(chi2, refCounts.value, data);
        (t.Err? ==> r == Err(t.error) && pValue == old(pValue)) &&
        (t.Ok? ==> r == Ok(t.value.0) && pValue == Some(t.value.1))
    {
      if refCounts.None? {
        return Err(NotFitted("tried to call 'calculate' on an unfitted method " + info.displayName + ". Please run 'fit' first"));
      }
      var t := Chi2Of(chi2, refCounts.value, data);
      if t.Err? {
        return Err(t.error);
      }
      pValue := Some(t.value.1);
      r := Ok(t.value.0);
    }

    /** `fit`: count the reference values, then calculate every reference
        chunk in turn (each one overwriting the p-value) and derive the
        thresholds from the statistics. */
    method Fit(reference: seq<Cell<Value>>, chunks: seq<seq<Cell<Value>>>) returns (o: Outcome)
      requires Valid()
      modifies this
      ensures Valid()
      ensures refCounts == Some(ValueCounts(RemoveMissing(reference)))
      ensures pValue == PValueAfter(chi2, refCounts.value, chunks, old(pValue))
      ensures var rs := ChunkStatistics(refCounts.value, chunks);
        (rs.Err? ==> o == Fail(rs.error) && band == old(band)) &&
        (rs.Ok? ==> o == Pass && band == threshold(rs.value, info.lowerLimit, info.upperLimit))
    {
      var counts := ValueCounts(RemoveMissing(reference));
      refCounts := Some(counts);
      ghost var compute := (d: seq<Cell<Value>>) => Statistic(counts, d);
      var results: seq<Float> := [];
      var i := 0;
      while i < |chunks|
        invariant 0 <= i <= |chunks|
        invariant refCounts == Some(counts) && band == old(band)
        invariant |results| == i
        invariant forall k :: 0 <= k < i ==> compute(chunks[k]).Ok? && results[k] == compute(chunks[k]).value
        invariant PValueAfter(chi2, counts, chunks[i..], pValue) == PValueAfter(chi2, counts, chunks, old(pValue))
      {
        assert chunks[i..][1..] == chunks[i + 1..];
        var r := Calculate(chunks[i]);
        if r.Err? {
          assert compute(chunks[i]) == Err(r.error);
          FirstFailureUnique(compute, chunks, i, r.error);
          return Fail(r.error);
        }
        results := results + [r.value];
        i := i + 1;
      }
      assert results == ChunkStatistics(counts, chunks).value;
      band := threshold(results, info.lowerLimit, info.upperLimit);
      o := Pass;
    }

    /** `alert`: clears both thresholds, then compares the stored p-value
        with 0.05 whatever the value passed; AttributeError when no
        p-value was ever computed. */
    method Alert(v: Float) returns (r: Result<bool>)
      modifies this
      ensures band == NoBand
      ensures refCounts == old(refCounts) && pValue == old(pValue)
      ensures pValue.None? ==> r == Err(Raised("AttributeError"))
      ensures pValue.Some? ==> r == Ok(Below(pValue.value, PValueLimit))
    {
      band := NoBand;
      if pValue.None? {
        return Err(Raised("AttributeError"));
      }
      r := Ok(Below(pValue.value, PValueLimit));
    }
  }
}
