/** NumPy's histogram over explicit bin edges, its evenly spaced edge grids
    and the minimum and maximum of a sample, over exact reals. */
module Histograms {
  import opened Wrappers
  import opened Seqs

  predicate Sorted(e: seq<real>) {
    forall i, j :: 0 <= i <= j < |e| ==> e[i] <= e[j]
  }

  /** x belongs to bin j: e[j] <= x < e[j+1], the last bin also holding its
      right edge. Edges may repeat; an empty bin then holds nothing. */
  predicate InBin(x: real, e: seq<real>, j: int)
    requires 0 <= j < |e| - 1
  {
    e[j] <= x && (x < e[j + 1] || (j == |e| - 2 && x == e[j + 1]))
  }

  /** The first bin from j on that holds x, or -1. */
  function BinFrom(x: real, e: seq<real>, j: nat): (r: int)
    requires j < |e|
    ensures r == -1 || (j <= r < |e| - 1 && InBin(x, e, r))
    ensures r == -1 ==> forall k :: j <= k < |e| - 1 ==> !InBin(x, e, k)
    decreases |e| - j
  {
    if j == |e| - 1 then -1
    else if InBin(x, e, j) then j
    else BinFrom(x, e, j + 1)
  }

  /** The bin that holds x, or -1 when x lies outside the edges. */
  function BinOf(x: real, e: seq<real>): (r: int)
    ensures r == -1 || (0 <= r < |e| - 1 && InBin(x, e, r))
  {
    if e == [] then -1 else BinFrom(x, e, 0)
  }

  /** Over sorted edges no value lies in two bins. */
  lemma BinUnique(x: real, e: seq<real>, j: int, k: int)
    requires Sorted(e)
    requires 0 <= j < k < |e| - 1
    requires InBin(x, e, j)
    ensures !InBin(x, e, k)
  {
    assert e[j + 1] <= e[k];
  }

  /** Over sorted edges every value between the first and the last edge
      lies in some bin. */
  lemma {:induction false} BinExists(x: real, e: seq<real>, j: nat)
    requires Sorted(e) && 2 <= |e|
    requires j < |e| - 1 && e[j] <= x <= e[|e| - 1]
    ensures BinFrom(x, e, j) >= 0
    decreases |e| - j
  {
    if !InBin(x, e, j) {
      BinExists(x, e, j + 1);
    }
  }

  /** The bin of x is the one bin holding it, and there is one exactly when
      x lies within the edges. */
  lemma BinOfSpec(x: real, e: seq<real>)
    requires Sorted(e)
    ensures BinOf(x, e) >= 0 <==> 2 <= |e| && e[0] <= x <= e[|e| - 1]
    ensures forall k :: 0 <= k < |e| - 1 ==> (InBin(x, e, k) <==> k == BinOf(x, e))
  {
    if 2 <= |e| && e[0] <= x <= e[|e| - 1] {
      BinExists(x, e, 0);
    }
    var b := BinOf(x, e);
    if b >= 0 {
      assert e[0] <= e[b] && e[b + 1] <= e[|e| - 1];
      forall k | 0 <= k < |e| - 1 && k != b
        ensures !InBin(x, e, k)
      {
        if k < b {
          if InBin(x, e, k) {
            BinUnique(x, e, k, b);
          }
        } else {
          BinUnique(x, e, b, k);
        }
      }
    }
  }

  function NumBins(e: seq<real>): nat {
    if e == [] then 0 else |e| - 1
  }

  /** The counts per bin of np.histogram(data, bins=e). */
  function Histogram(data: seq<real>, e: seq<real>): (h: seq<nat>)
    ensures |h| == NumBins(e)
    ensures Sum(h) <= |data|
  {
    if data == [] then Zeros(NumBins(e))
    else
      var h := Histogram(data[..|data| - 1], e);
      var b := BinOf(data[|data| - 1], e);
      if b >= 0 then
        SumIncrement(h, b);
        h[b := h[b] + 1]
      else h
  }

  /** np.histogram(data, bins=e): ValueError unless the edges increase
      monotonically, the counts per bin otherwise. */
  function NpHistogram(data: seq<real>, e: seq<real>): (r: Result<seq<nat>>)
    ensures r.Err? <==> !Sorted(e)
    ensures r.Ok? ==> r.value == Histogram(data, e)
    ensures r.Err? ==> r.error == Raised("ValueError")
  {
    if forall i :: 0 <= i < |e| - 1 ==> e[i] <= e[i + 1] then
      assert Sorted(e) by {
        forall i, j | 0 <= i <= j < |e|
          ensures e[i] <= e[j]
        {
          SortedStep(e, i, j);
        }
      }
      Ok(Histogram(data, e))
    else Err(Raised("ValueError"))
  }

  lemma {:induction false} SortedStep(e: seq<real>, i: int, j: int)
    requires forall k :: 0 <= k < |e| - 1 ==> e[k] <= e[k + 1]
    requires 0 <= i <= j < |e|
    ensures e[i] <= e[j]
    decreases j - i
  {
    if i < j {
      SortedStep(e, i, j - 1);
    }
  }

  /** How many values of the sample lie in bin j. */
  function CountInBin(data: seq<real>, e: seq<real>, j: int): nat
    requires 0 <= j < |e| - 1
  {
    if data == [] then 0
    else CountInBin(data[..|data| - 1], e, j) + (if InBin(data[|data| - 1], e, j) then 1 else 0)
  }

  /** Each count is the number of values lying in its bin. */
  lemma {:induction false} HistogramCounts(data: seq<real>, e: seq<real>, j: int)
    requires Sorted(e) && 0 <= j < |e| - 1
    ensures Histogram(data, e)[j] == CountInBin(data, e, j)
    decreases |data|
  {
    if data != [] {
      HistogramCounts(data[..|data| - 1], e, j);
      BinOfSpec(data[|data| - 1], e);
    }
  }

  predicate Within(data: seq<real>, lo: real, hi: real) {
    forall i :: 0 <= i < |data| ==> lo <= data[i] <= hi
  }

  /** A sample lying within the edges is counted whole. */
  lemma {:induction false} HistogramCovers(data: seq<real>, e: seq<real>)
    requires Sorted(e) && 2 <= |e| && Within(data, e[0], e[|e| - 1])
    ensures Sum(Histogram(data, e)) == |data|
    decreases |data|
  {
    if data != [] {
      var front := data[..|data| - 1];
      assert Within(front, e[0], e[|e| - 1]);
      HistogramCovers(front, e);
      BinOfSpec(data[|data| - 1], e);
      SumIncrement(Histogram(front, e), BinOf(data[|data| - 1], e));
    }
  }

  /** np.linspace(a, b, num) for num >= 0: num evenly spaced points, the
      first a and, for num >= 2, the last b. */
  function Linspace(a: real, b: real, num: nat): (r: seq<real>)
    ensures |r| == num
    ensures num >= 1 ==> r[0] == a
    ensures num >= 2 ==> r[num - 1] == b
    ensures a <= b ==> Sorted(r)
  {
    if num == 0 then []
    else if num == 1 then [a]
    else
      var step := (b - a) / (num - 1) as real;
      var r := seq(num, i requires 0 <= i < num => if i == num - 1 then b else a + i as real * step);
      assert a <= b ==> Sorted(r) by {
        if a <= b {
          assert step >= 0.0;
          forall i, j | 0 <= i <= j < num
            ensures r[i] <= r[j]
          {
            assert i as real * step <= j as real * step by {
              assert (j - i) as real * step >= 0.0;
            }
            assert a + (num - 1) as real * step == b;
            if j < num - 1 {
              assert r[j] == a + j as real * step;
            } else if i < num - 1 {
              assert i as real * step <= (num - 1) as real * step by {
                assert (num - 1 - i) as real * step >= 0.0;
              }
            }
          }
        }
      }
      r
  }

  function Min(s: seq<real>): (m: real)
    requires s != []
    ensures m in s && forall i :: 0 <= i < |s| ==> m <= s[i]
  {
    if |s| == 1 then s[0]
    else
      var m := Min(s[..|s| - 1]);
      assert forall i :: 0 <= i < |s| - 1 ==> s[..|s| - 1][i] == s[i];
      if s[|s| - 1] < m then s[|s| - 1] else m
  }

  function Max(s: seq<real>): (m: real)
    requires s != []
    ensures m in s && forall i :: 0 <= i < |s| ==> s[i] <= m
  {
    if |s| == 1 then s[0]
    else
      var m := Max(s[..|s| - 1]);
      assert forall i :: 0 <= i < |s| - 1 ==> s[..|s| - 1][i] == s[i];
      if s[|s| - 1] > m then s[|s| - 1] else m
  }

  /** How many values lie strictly below t: `len(data[data < t])`. */
  function CountBelow(data: seq<real>, t: real): (r: nat)
    ensures r <= |data|
  {
    if data == [] then 0
    else CountBelow(data[..|data| - 1], t) + (if data[|data| - 1] < t then 1 else 0)
  }

  /** Values below the first edge fall in no bin, so they and the binned
      values together never outnumber the sample. */
  lemma {:induction false} HistogramAndBelow(data: seq<real>, e: seq<real>)
    requires Sorted(e) && e != []
    ensures Sum(Histogram(data, e)) + CountBelow(data, e[0]) <= |data|
    decreases |data|
  {
    if data != [] {
      var front := data[..|data| - 1];
      var x := data[|data| - 1];
      HistogramAndBelow(front, e);
      var b := BinOf(x, e);
      if b >= 0 {
        assert e[0] <= e[b];
        SumIncrement(Histogram(front, e), b);
      }
    }
  }

  /** No value of a sample lies below its minimum. */
  lemma {:induction false} NoneBelowMin(data: seq<real>, t: real)
    requires forall i :: 0 <= i < |data| ==> t <= data[i]
    ensures CountBelow(data, t) == 0
    decreases |data|
  {
    if data != [] {
      NoneBelowMin(data[..|data| - 1], t);
    }
  }
}
