/** Sequence arithmetic shared by the model: sums, counts, cumulative sums,
    distinct elements and order-preserving filters. Every recursive
    definition peels the LAST element, matching how cumulative sums grow. */
module Seqs {

  function Abs(x: real): (r: real)
    ensures r >= 0.0 && (r == x || r == -x)
  {
    if x < 0.0 then -x else x
  }

  /** |a[i] - b[i]| for every i. */
  function AbsDiffs(a: seq<real>, b: seq<real>): (r: seq<real>)
    requires |a| == |b|
    ensures |r| == |a|
    ensures forall i :: 0 <= i < |a| ==> r[i] == Abs(a[i] - b[i]) && r[i] >= 0.0
  {
    seq(|a|, i requires 0 <= i < |a| => Abs(a[i] - b[i]))
  }

  lemma MulPositive(x: real, y: real)
    requires x > 0.0 && y > 0.0
    ensures x * y > 0.0
  {
  }

  lemma MulNonNegative(x: real, y: real)
    requires x >= 0.0 && y > 0.0
    ensures x * y >= 0.0
  {
  }

  /** Multiplying by a positive factor keeps a strict order. */
  lemma MulLess(a: real, b: real, w: real)
    requires a < b && w > 0.0
    ensures a * w < b * w
  {
    assert (b - a) * w == b * w - a * w;
    MulPositive(b - a, w);
  }

  /** The same for natural numbers. */
  lemma {:induction false} MulLessNat(a: nat, b: nat, c: nat)
    requires a < b && c > 0
    ensures a * c < b * c
    decreases c
  {
    if c > 1 {
      MulLessNat(a, b, c - 1);
      assert a * c == a * (c - 1) + a;
      assert b * c == b * (c - 1) + b;
    }
  }

  /** Multiplying by a positive factor keeps a weak order. */
  lemma MulAtMost(a: real, b: real, w: real)
    requires a <= b && w > 0.0
    ensures a * w <= b * w
  {
    assert (b - a) * w == b * w - a * w;
    MulNonNegative(b - a, w);
  }

  /** A part over its whole is at most 1. */
  lemma FractionAtMostOne(a: nat, n: nat)
    requires 0 < n && a <= n
    ensures 0.0 <= a as real / n as real <= 1.0
  {
    var q := a as real / n as real;
    var m := n as real;
    assert q * m == a as real;
    assert (q - 1.0) * m == q * m - m;
    assert (-q) * m == -(q * m);
    if q > 1.0 {
      MulPositive(q - 1.0, m);
    }
    if q < 0.0 {
      MulPositive(-q, m);
    }
  }

  lemma ZeroFraction(n: nat)
    requires n > 0
    ensures 0 as real / n as real == 0.0
  {
    var q := 0 as real / n as real;
    var m := n as real;
    assert q * m == 0.0;
    assert (-q) * m == -(q * m);
    if q > 0.0 {
      MulPositive(q, m);
    }
    if q < 0.0 {
      MulPositive(-q, m);
    }
  }

  lemma WholeFraction(n: nat)
    requires n > 0
    ensures n as real / n as real == 1.0
  {
    var q := n as real / n as real;
    var m := n as real;
    assert q * m == m;
    assert (q - 1.0) * m == q * m - m;
    assert (1.0 - q) * m == m - q * m;
    if q > 1.0 {
      MulPositive(q - 1.0, m);
    }
    if q < 1.0 {
      MulPositive(1.0 - q, m);
    }
  }

  lemma FractionSum(a: nat, b: nat, n: nat)
    requires n > 0
    ensures a as real / n as real + b as real / n as real == (a + b) as real / n as real
  {
  }

  /** A count over a total exceeds a tenth exactly when ten times the
      count exceeds the total. */
  lemma FractionAboveTenth(u: nat, n: nat)
    requires n > 0
    ensures (u as real / n as real > 0.1) <==> 10 * u > n
  {
    var q := u as real / n as real;
    var m := n as real;
    assert q * m == u as real;
    if q > 0.1 {
      MulPositive(q - 0.1, m);
      assert (q - 0.1) * m == q * m - 0.1 * m;
    } else {
      MulNonNegative(0.1 - q, m);
      assert (0.1 - q) * m == 0.1 * m - q * m;
    }
  }

  function Sum(s: seq<nat>): nat
  {
    if s == [] then 0 else Sum(s[..|s| - 1]) + s[|s| - 1]
  }

  function SumR(s: seq<real>): real
  {
    if s == [] then 0.0 else SumR(s[..|s| - 1]) + s[|s| - 1]
  }

  lemma {:induction false} SumAppend(a: seq<nat>, b: seq<nat>)
    ensures Sum(a + b) == Sum(a) + Sum(b)
    decreases |b|
  {
    if b == [] {
      assert a + b == a;
    } else {
      assert (a + b)[..|a + b| - 1] == a + b[..|b| - 1];
      SumAppend(a, b[..|b| - 1]);
    }
  }

  lemma {:induction false} SumRAppend(a: seq<real>, b: seq<real>)
    ensures SumR(a + b) == SumR(a) + SumR(b)
    decreases |b|
  {
    if b == [] {
      assert a + b == a;
    } else {
      assert (a + b)[..|a + b| - 1] == a + b[..|b| - 1];
      SumRAppend(a, b[..|b| - 1]);
    }
  }

  /** Adding one to a single entry adds one to the total. */
  lemma {:induction false} SumIncrement(s: seq<nat>, j: nat)
    requires j < |s|
    ensures Sum(s[j := s[j] + 1]) == Sum(s) + 1
    decreases |s|
  {
    var t := s[j := s[j] + 1];
    if j == |s| - 1 {
      assert t[..|t| - 1] == s[..|s| - 1];
    } else {
      assert t[..|t| - 1] == s[..|s| - 1][j := s[j] + 1];
      SumIncrement(s[..|s| - 1], j);
    }
  }

  /** A sum of non-negative reals is non-negative. */
  lemma {:induction false} SumRNonNegative(s: seq<real>)
    requires forall i :: 0 <= i < |s| ==> s[i] >= 0.0
    ensures SumR(s) >= 0.0
    decreases |s|
  {
    if s != [] {
      SumRNonNegative(s[..|s| - 1]);
    }
  }

  /** No entry exceeds the total. */
  lemma {:induction false} ElementLeSum(s: seq<nat>, j: nat)
    requires j < |s|
    ensures s[j] <= Sum(s)
    decreases |s|
  {
    if j < |s| - 1 {
      ElementLeSum(s[..|s| - 1], j);
    }
  }

  lemma SumPrefixLe(s: seq<nat>, k: nat)
    requires k <= |s|
    ensures Sum(s[..k]) <= Sum(s)
  {
    assert s == s[..k] + s[k..];
    SumAppend(s[..k], s[k..]);
  }

  function Zeros(n: nat): (r: seq<nat>)
    ensures |r| == n && Sum(r) == 0
    ensures forall i :: 0 <= i < n ==> r[i] == 0
  {
    if n == 0 then [] else
      var z := Zeros(n - 1) + [0];
      assert z[..n - 1] == Zeros(n - 1);
      z
  }

  function ZerosR(n: nat): (r: seq<real>)
    ensures |r| == n && SumR(r) == 0.0
    ensures forall i :: 0 <= i < n ==> r[i] == 0.0
  {
    if n == 0 then [] else
      var z := ZerosR(n - 1) + [0.0];
      assert z[..n - 1] == ZerosR(n - 1);
      z
  }

  /** Counts divided by a total: the relative frequencies `counts / n`. */
  function Scale(h: seq<nat>, n: nat): (r: seq<real>)
    requires n > 0
    ensures |r| == |h|
    ensures forall i :: 0 <= i < |h| ==> r[i] == h[i] as real / n as real
  {
    seq(|h|, i requires 0 <= i < |h| => h[i] as real / n as real)
  }

  lemma {:induction false} SumScale(h: seq<nat>, n: nat)
    requires n > 0
    ensures SumR(Scale(h, n)) == Sum(h) as real / n as real
    decreases |h|
  {
    if h != [] {
      var k := |h| - 1;
      assert Scale(h, n)[..k] == Scale(h[..k], n);
      SumScale(h[..k], n);
      assert Sum(h) as real == Sum(h[..k]) as real + h[k] as real;
    }
  }

  /** Running totals: entry i is the sum of entries 0..i. */
  function CumSum(s: seq<real>): (r: seq<real>)
    ensures |r| == |s|
  {
    if s == [] then [] else CumSum(s[..|s| - 1]) + [SumR(s)]
  }

  lemma {:induction false} CumSumAt(s: seq<real>, i: nat)
    requires i < |s|
    ensures CumSum(s)[i] == SumR(s[..i + 1])
    decreases |s|
  {
    if i < |s| - 1 {
      assert s[..|s| - 1][..i + 1] == s[..i + 1];
      CumSumAt(s[..|s| - 1], i);
    } else {
      assert s[..i + 1] == s;
    }
  }

  function Count<T(==)>(s: seq<T>, x: T): (r: nat)
    ensures r <= |s|
    ensures r > 0 <==> x in s
  {
    if s == [] then 0
    else Count(s[..|s| - 1], x) + (if s[|s| - 1] == x then 1 else 0)
  }

  /** The number of elements of s that belong to the set S. */
  function CountIn<T(==)>(s: seq<T>, S: set<T>): (r: nat)
    ensures r <= |s|
  {
    if s == [] then 0
    else CountIn(s[..|s| - 1], S) + (if s[|s| - 1] in S then 1 else 0)
  }

  /** Every element is counted only when every element is in the set. */
  lemma {:induction false} CountInFull<T>(s: seq<T>, S: set<T>)
    requires CountIn(s, S) == |s|
    ensures forall x :: x in s ==> x in S
    decreases |s|
  {
    if s != [] {
      var front := s[..|s| - 1];
      CountInFull(front, S);
      assert forall x :: x in s ==> x in front || x == s[|s| - 1];
    }
  }

  lemma {:induction false} CountInAll<T>(s: seq<T>, S: set<T>)
    requires forall x :: x in s ==> x in S
    ensures CountIn(s, S) == |s|
    decreases |s|
  {
    if s != [] {
      CountInAll(s[..|s| - 1], S);
    }
  }

  /** Counting the members of S plus one more element x outside S. */
  lemma {:induction false} CountInAddOne<T>(s: seq<T>, S: set<T>, x: T)
    requires x !in S
    ensures CountIn(s, S + {x}) == CountIn(s, S) + Count(s, x)
    decreases |s|
  {
    if s != [] {
      CountInAddOne(s[..|s| - 1], S, x);
    }
  }

  predicate NoDuplicates<T(==)>(s: seq<T>) {
    forall i, j :: 0 <= i < j < |s| ==> s[i] != s[j]
  }

  /** The distinct elements of s in order of first occurrence. */
  function Distinct<T(==,!new)>(s: seq<T>): (r: seq<T>)
    ensures NoDuplicates(r)
    ensures forall x :: x in r <==> x in s
    ensures |r| <= |s|
  {
    if s == [] then []
    else
      var d := Distinct(s[..|s| - 1]);
      assert forall x :: x in s <==> x in s[..|s| - 1] || x == s[|s| - 1];
      if s[|s| - 1] in d then d else d + [s[|s| - 1]]
  }

  /** A sequence has as many distinct elements as elements exactly when
      none is repeated. */
  lemma {:induction false} DistinctLength<T(!new)>(s: seq<T>)
    ensures |Distinct(s)| == |s| <==> NoDuplicates(s)
    decreases |s|
  {
    if s != [] {
      var front := s[..|s| - 1];
      var last := s[|s| - 1];
      DistinctLength(front);
      if NoDuplicates(s) {
        assert NoDuplicates(front) by {
          assert forall i :: 0 <= i < |front| ==> front[i] == s[i];
        }
        assert last !in front by {
          assert forall i :: 0 <= i < |front| ==> front[i] == s[i] && s[i] != last;
        }
      } else if NoDuplicates(front) {
        assert forall a, b :: 0 <= a < b < |front| ==> s[a] != s[b] by {
          assert forall a :: 0 <= a < |front| ==> front[a] == s[a];
        }
        var i, j :| 0 <= i < j < |s| && s[i] == s[j];
        assert front[i] == last;
      }
    }
  }

  /** The count of every label of `labels`, one entry per label. */
  function CountsOf<T(==)>(data: seq<T>, labels: seq<T>): (r: seq<nat>)
    ensures |r| == |labels|
    ensures forall i :: 0 <= i < |labels| ==> r[i] == Count(data, labels[i])
  {
    if labels == [] then []
    else CountsOf(data, labels[..|labels| - 1]) + [Count(data, labels[|labels| - 1])]
  }

  /** The set of a sequence's elements grows by its last element. */
  lemma ElementsSnoc<T>(labels: seq<T>, front: seq<T>, last: T)
    requires labels == front + [last]
    ensures (set l | l in labels) == (set l | l in front) + {last}
  {
    assert forall l :: l in labels <==> l in front || l == last;
  }

  /** The last of distinct labels is not among the others. */
  lemma LastIsNew<T>(labels: seq<T>, front: seq<T>, last: T)
    requires labels == front + [last] && NoDuplicates(labels)
    ensures last !in (set l | l in front)
  {
    assert forall j :: 0 <= j < |front| ==> front[j] == labels[j] && labels[j] != labels[|front|];
  }

  /** The counts of the labels add up to those of all but the last, plus
      the last one's. */
  lemma SumCountsOfSnoc<T>(data: seq<T>, labels: seq<T>)
    requires labels != []
    ensures Sum(CountsOf(data, labels)) ==
      Sum(CountsOf(data, labels[..|labels| - 1])) + Count(data, labels[|labels| - 1])
  {
    var c := CountsOf(data, labels);
    assert c[..|c| - 1] == CountsOf(data, labels[..|labels| - 1]);
  }

  /** Counting several distinct labels never counts an element twice: the
      total is the number of elements carrying one of the labels. */
  lemma {:induction false} SumCountsOf<T>(data: seq<T>, labels: seq<T>)
    requires NoDuplicates(labels)
    ensures Sum(CountsOf(data, labels)) == CountIn(data, set l | l in labels)
    ensures Sum(CountsOf(data, labels)) <= |data|
    decreases |labels|
  {
    if labels == [] {
      assert (set l | l in labels) == {};
      CountInNone(data);
    } else {
      var k := |labels| - 1;
      var front := labels[..k];
      SumCountsOf(data, front);
      assert labels == front + [labels[k]];
      ElementsSnoc(labels, front, labels[k]);
      LastIsNew(labels, front, labels[k]);
      CountInAddOne(data, (set l | l in front), labels[k]);
      SumCountsOfSnoc(data, labels);
    }
  }

  lemma {:induction false} CountInNone<T>(s: seq<T>)
    ensures CountIn(s, {}) == 0
    decreases |s|
  {
    if s != [] {
      CountInNone(s[..|s| - 1]);
    }
  }

  /** The elements of s satisfying p, in their original order. */
  function Filter<T(!new)>(s: seq<T>, p: T -> bool): (r: seq<T>)
    ensures |r| <= |s|
    ensures forall x :: x in r <==> x in s && p(x)
  {
    if s == [] then []
    else
      var front := Filter(s[..|s| - 1], p);
      assert forall x :: x in s <==> x in s[..|s| - 1] || x == s[|s| - 1];
      if p(s[|s| - 1]) then front + [s[|s| - 1]] else front
  }

  /** a can be obtained from b by deleting elements, keeping the order. */
  predicate IsSubsequence<T(==)>(a: seq<T>, b: seq<T>)
    decreases |b|
  {
    if a == [] then true
    else if b == [] then false
    else if a[|a| - 1] == b[|b| - 1] then IsSubsequence(a[..|a| - 1], b[..|b| - 1])
    else IsSubsequence(a, b[..|b| - 1])
  }

  lemma {:induction false} FilterIsSubsequence<T(!new)>(s: seq<T>, p: T -> bool)
    ensures IsSubsequence(Filter(s, p), s)
    decreases |s|
  {
    if s != [] {
      var k := |s| - 1;
      FilterIsSubsequence(s[..k], p);
      if p(s[k]) {
        var r := Filter(s, p);
        assert r[..|r| - 1] == Filter(s[..k], p);
      } else {
        SubsequenceOfFront(Filter(s, p), s);
      }
    }
  }

  /** One step of Filter: the last element is kept exactly when it passes. */
  lemma FilterSnoc<T(!new)>(s: seq<T>, p: T -> bool)
    requires s != []
    ensures Filter(s, p) == if p(s[|s| - 1]) then Filter(s[..|s| - 1], p) + [s[|s| - 1]]
                            else Filter(s[..|s| - 1], p)
  {
  }

  lemma CountSnoc<T>(s: seq<T>, last: T, x: T)
    ensures Count(s + [last], x) == Count(s, x) + if last == x then 1 else 0
  {
    assert (s + [last])[..|s|] == s;
  }

  /** Filtering keeps every element that passes as often as it occurs,
      and no other. */
  lemma {:induction false} FilterCount<T(!new)>(s: seq<T>, p: T -> bool, x: T)
    ensures Count(Filter(s, p), x) == if p(x) then Count(s, x) else 0
    decreases |s|
  {
    if s != [] {
      var front := s[..|s| - 1];
      var last := s[|s| - 1];
      assert s == front + [last];
      FilterCount(front, p, x);
      FilterSnoc(s, p);
      CountSnoc(front, last, x);
      if p(last) {
        CountSnoc(Filter(front, p), last, x);
      }
    }
  }

  /** A sequence whose every element passes is its own filter. */
  lemma {:induction false} FilterAll<T(!new)>(s: seq<T>, p: T -> bool)
    requires forall i :: 0 <= i < |s| ==> p(s[i])
    ensures Filter(s, p) == s
    decreases |s|
  {
    if s != [] {
      var front := s[..|s| - 1];
      assert s == front + [s[|s| - 1]];
      FilterAll(front, p);
      FilterSnoc(s, p);
    }
  }

  /** Dropping the last element of b keeps a subsequence of it a subsequence of b. */
  lemma {:induction false} SubsequenceOfFront<T>(a: seq<T>, b: seq<T>)
    requires b != [] && IsSubsequence(a, b[..|b| - 1])
    ensures IsSubsequence(a, b)
    decreases |b|, 0
  {
    if a != [] && a[|a| - 1] == b[|b| - 1] {
      SubsequenceWeaken(a, b[..|b| - 1]);
    }
  }

  /** Dropping the last element of a subsequence keeps it a subsequence. */
  lemma {:induction false} SubsequenceWeaken<T>(a: seq<T>, b: seq<T>)
    requires a != [] && IsSubsequence(a, b)
    ensures IsSubsequence(a[..|a| - 1], b)
    decreases |b|, 1
  {
    var a' := a[..|a| - 1];
    if a[|a| - 1] != b[|b| - 1] {
      SubsequenceWeaken(a, b[..|b| - 1]);
    }
    SubsequenceOfFront(a', b);
  }
}
