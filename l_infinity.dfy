/** The L-infinity distance: the largest gap between the reference's and a
    chunk's share of any label, a label absent on one side counting as 0. */
module LInfinity {
  import opened Wrappers
  import opened Floats
  import opened Seqs
  import opened Base
  import opened MethodBase

  /** `{label: (xs == label).sum() / len(xs) for label in xs.unique()}`. */
  function LabelShares(xs: seq<Value>): (r: map<Value, real>)
    ensures r.Keys == set v | v in xs
    ensures forall v :: v in r ==> r[v] == Count(xs, v) as real / |xs| as real
  {
    map v | v in xs :: Count(xs, v) as real / |xs| as real
  }

  /** Every share lies in [0, 1]. */
  lemma LabelSharesBounded(xs: seq<Value>)
    ensures forall v :: v in LabelShares(xs) ==> 0.0 <= LabelShares(xs)[v] <= 1.0
  {
    forall v | v in LabelShares(xs)
      ensures 0.0 <= LabelShares(xs)[v] <= 1.0
    {
      FractionAtMostOne(Count(xs, v), |xs|);
    }
  }

  /** `d.get(label, 0)`. */
  function Get(m: map<Value, real>, l: Value): real {
    if l in m then m[l] else 0.0
  }

  function Gap(ref: map<Value, real>, data: map<Value, real>, l: Value): real {
    Abs(Get(ref, l) - Get(data, l))
  }

  /** d is the L-infinity distance of the two share maps: the gap of some
      label of either map, and no label's gap exceeds it. */
  ghost predicate IsLInfinity(ref: map<Value, real>, data: map<Value, real>, d: real) {
    (exists l :: l in ref.Keys + data.Keys && d == Gap(ref, data, l)) &&
    (forall l :: l in ref.Keys + data.Keys ==> Gap(ref, data, l) <= d)
  }

  predicate Shares(m: map<Value, real>) {
    forall l :: l in m ==> 0.0 <= m[l] <= 1.0
  }

  /** Between two share maps the distance lies in [0, 1]. */
  lemma LInfinityBounded(ref: map<Value, real>, data: map<Value, real>, d: real)
    requires Shares(ref) && Shares(data) && IsLInfinity(ref, data, d)
    ensures 0.0 <= d <= 1.0
  {
    var l :| l in ref.Keys + data.Keys && d == Gap(ref, data, l);
  }

  /** A chunk with the reference's shares is at distance 0. */
  lemma LInfinityOfEqual(m: map<Value, real>, d: real)
    requires IsLInfinity(m, m, d)
    ensures d == 0.0
  {
    var l :| l in m.Keys && d == Gap(m, m, l);
  }

  /** Neither the reference nor the stripped chunk has a label. */
  predicate NoLabels(ref: map<Value, real>, data: seq<Cell<Value>>) {
    ref.Keys + LabelShares(RemoveMissing(data)).Keys == {}
  }

  /** d is the distance of one chunk from the reference shares. */
  ghost predicate ChunkValue(ref: map<Value, real>, chunk: seq<Cell<Value>>, d: Float) {
    d.Finite? && IsLInfinity(ref, LabelShares(RemoveMissing(chunk)), d.v)
  }

  /** results holds, chunk by chunk, the distance of each chunk. */
  ghost predicate ChunkValues(ref: map<Value, real>, chunks: seq<seq<Cell<Value>>>, results: seq<Float>) {
    |results| == |chunks| && forall k :: 0 <= k < |chunks| ==> ChunkValue(ref, chunks[k], results[k])
  }

  /** The distance is unique, so the values `fit` collects are determined
      by the chunks. */
  lemma IsLInfinityUnique(ref: map<Value, real>, data: map<Value, real>, d1: real, d2: real)
    requires IsLInfinity(ref, data, d1) && IsLInfinity(ref, data, d2)
    ensures d1 == d2
  {
    var l1 :| l1 in ref.Keys + data.Keys && d1 == Gap(ref, data, l1);
    var l2 :| l2 in ref.Keys + data.Keys && d2 == Gap(ref, data, l2);
  }

  /** `LInfinityDistance`. */
  class LInfinityDistance {
    const info: MethodInfo
    const threshold: ThresholdFn
    var band: Band
    var referenceShares: Option<map<Value, real>>

    ghost predicate Valid()
      reads this
    {
      info == InfoOf(LInfinity) && (referenceShares.Some? ==> Shares(referenceShares.value))
    }

    constructor (threshold: ThresholdFn)
      ensures Valid()
      ensures band == NoBand && referenceShares == None && this.threshold == threshold
    {
      info := InfoOf(LInfinity);
      this.threshold := threshold;
      band := NoBand;
      referenceShares := None;
    }

    /** `_calculate` against the given reference shares: the gaps are
        collected label by label into a dictionary, and the largest is
        returned; no label at all leaves `max` nothing to take. */
    static method Distance(ref: map<Value, real>, data: seq<Cell<Value>>) returns (r: Result<Float>)
      ensures r.Err? <==> NoLabels(ref, data)
      ensures r.Err? ==> r.error == Raised("ValueError")
      ensures r.Ok? ==> r.value.Finite? && IsLInfinity(ref, LabelShares(RemoveMissing(data)), r.value.v)
    {
      var shares := LabelShares(RemoveMissing(data));
      var union := ref.Keys + shares.Keys;
      var differences: map<Value, real> := map[];
      var remaining := union;
      while remaining != {}
        invariant remaining <= union
        invariant differences.Keys == union - remaining
        invariant forall l :: l in differences ==> differences[l] == Gap(ref, shares, l)
        decreases remaining
      {
        var l :| l in remaining;
        differences := differences[l := Gap(ref, shares, l)];
        remaining := remaining - {l};
      }
      if differences == map[] {
        return Err(Raised("ValueError"));
      }
      var best := MaxValue(differences);
      r := Ok(Finite(best));
    }

    /** `max(d.values())` of a non-empty dictionary. */
    static method MaxValue(m: map<Value, real>) returns (best: real)
      requires m != map[]
      ensures exists l :: l in m && best == m[l]
      ensures forall l :: l in m ==> m[l] <= best
    {
      var first :| first in m;
      best := m[first];
      var remaining := m.Keys - {first};
      while remaining != {}
        invariant remaining <= m.Keys && first !in remaining
        invariant exists l :: l in m && l !in remaining && best == m[l]
        invariant forall l :: l in m && l !in remaining ==> m[l] <= best
        decreases remaining
      {
        var l :| l in remaining;
        if m[l] > best {
          best := m[l];
        }
        remaining := remaining - {l};
      }
    }

    /** The loop of `fit` over the reference chunks: every chunk's distance,
        or the error of the first chunk with no label. */
    static method ChunkDistances(ref: map<Value, real>, chunks: seq<seq<Cell<Value>>>) returns (r: Result<seq<Float>>)
      ensures r.Err? <==> exists k :: 0 <= k < |chunks| && NoLabels(ref, chunks[k])
      ensures r.Err? ==> r.error == Raised("ValueError")
      ensures r.Ok? ==> ChunkValues(ref, chunks, r.value)
    {
      var results: seq<Float> := [];
      var i := 0;
      while i < |chunks|
        invariant 0 <= i <= |chunks|
        invariant |results| == i
        invariant forall k :: 0 <= k < i ==> ChunkValue(ref, chunks[k], results[k])
        invariant forall k :: 0 <= k < i ==> !NoLabels(ref, chunks[k])
      {
        var d := Distance(ref, chunks[i]);
        if d.Err? {
          assert NoLabels(ref, chunks[i]);
          return Err(d.error);
        }
        assert ChunkValue(ref, chunks[i], d.value);
        results := results + [d.value];
        i := i + 1;
      }
      r := Ok(results);
    }

    /** `fit`: the reference shares, then the thresholds from the
        distances of the reference chunks. */
    method Fit(reference: seq<Cell<Value>>, chunks: seq<seq<Cell<Value>>>) returns (o: Outcome)
      requires Valid()
      modifies this
      ensures Valid()
      ensures referenceShares == Some(LabelShares(RemoveMissing(reference)))
      ensures o.Fail? <==> exists k :: 0 <= k < |chunks| && NoLabels(referenceShares.value, chunks[k])
      ensures o.Fail? ==> o.error == Raised("ValueError") && band == old(band)
      ensures o.Pass? ==> exists results ::
        (ChunkValues(referenceShares.value, chunks, results) &&
         band == threshold(results, info.lowerLimit, info.upperLimit))
    {
      var ref := LabelShares(RemoveMissing(reference));
      LabelSharesBounded(RemoveMissing(reference));
      referenceShares := Some(ref);
      var distances := ChunkDistances(ref, chunks);
      if distances.Err? {
        return Fail(distances.error);
      }
      var results := distances.value;
      band := threshold(results, info.lowerLimit, info.upperLimit);
      o := Pass;
    }

    /** `calculate`: NotFitted before `fit`, the distance after. */
    method Calculate(data: seq<Cell<Value>>) returns (r: Result<Float>)
      ensures referenceShares.None? ==> r.Err? && r.error.NotFitted?
      ensures referenceShares.Some? ==>
        (r.Err? <==> NoLabels(referenceShares.value, data)) &&
        (r.Err? ==> r.error == Raised("ValueError")) &&
        (r.Ok? ==> r.value.Finite? && IsLInfinity(referenceShares.value, LabelShares(RemoveMissing(data)), r.value.v))
    {
      if referenceShares.None? {
        return Err(NotFitted("tried to call 'calculate' on an unfitted method " + info.displayName + ". Please run 'fit' first"));
      }
      r := Distance(referenceShares.value, data);
    }

    predicate Alert(v: Float)
      reads this
    {
      BandAlert(band, v)
    }
  }
}
