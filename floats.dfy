/** Floating-point results that may be NaN. Values are exact reals; NaN is
    what NumPy produces for 0/0 on arrays and what propagates through
    later arithmetic. */
module Floats {
  import opened Seqs

  datatype Float = Finite(v: real) | NaN

  /** `x < bound` as Python evaluates it: false whenever x is NaN. */
  predicate Below(x: Float, bound: real) {
    x.Finite? && x.v < bound
  }

  /** `x > bound` as Python evaluates it: false whenever x is NaN. */
  predicate Above(x: Float, bound: real) {
    x.Finite? && x.v > bound
  }

  /** A count divided by a total with NumPy semantics: 0/0 is NaN. */
  function Ratio(num: nat, den: nat): (r: Float)
    requires num <= den
    ensures r.NaN? <==> den == 0
    ensures r.Finite? ==> 0.0 <= r.v <= 1.0 && r.v * den as real == num as real
  {
    if den == 0 then NaN else Finite(num as real / den as real)
  }

  predicate AllFinite(xs: seq<Float>) {
    forall i :: 0 <= i < |xs| ==> xs[i].Finite?
  }

  /** The numbers of a NaN-free vector. */
  function Reals(xs: seq<Float>): (r: seq<real>)
    requires AllFinite(xs)
    ensures |r| == |xs| && forall i :: 0 <= i < |xs| ==> r[i] == xs[i].v
  {
    seq(|xs|, i requires 0 <= i < |xs| => xs[i].v)
  }

  /** `np.sum`: NaN as soon as one entry is NaN. */
  function FloatSum(xs: seq<Float>): (r: Float)
    ensures r.NaN? <==> !AllFinite(xs)
    ensures r.Finite? ==> r.v == SumR(Reals(xs))
  {
    if AllFinite(xs) then Finite(SumR(Reals(xs))) else NaN
  }

  /** `counts / n` on an array: each count as a fraction of n, all NaN when n is 0. */
  function Proportions(counts: seq<nat>, n: nat): (r: seq<Float>)
    requires forall i :: 0 <= i < |counts| ==> counts[i] <= n
    ensures |r| == |counts|
    ensures forall i :: 0 <= i < |counts| ==> r[i] == Ratio(counts[i], n)
  {
    seq(|counts|, i requires 0 <= i < |counts| => Ratio(counts[i], n))
  }

  /** With n > 0 the proportions are finite and add up to total / n. */
  lemma ProportionsSum(counts: seq<nat>, n: nat)
    requires n > 0
    requires forall i :: 0 <= i < |counts| ==> counts[i] <= n
    ensures AllFinite(Proportions(counts, n))
    ensures Reals(Proportions(counts, n)) == Scale(counts, n)
    ensures SumR(Reals(Proportions(counts, n))) == Sum(counts) as real / n as real
  {
    assert Reals(Proportions(counts, n)) == Scale(counts, n);
    SumScale(counts, n);
  }
}
