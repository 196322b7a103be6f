/**
 * The numeric summaries the filters rely on (numpy's `sum`, `mean`, `std`,
 * `median` and `abs`), defined over exact reals.
 *
 * `Median` follows numpy: the middle element of the sorted values, or the
 * average of the two middle elements when the count is even.
 * `Variance` is numpy's population variance (ddof = 0), the square of `std`.
 */
module Stats {

  function Abs(x: real): (r: real)
    ensures r >= 0.0
    ensures r == x || r == -x
  {
    if x < 0.0 then -x else x
  }

  function Sum(s: seq<real>): real
  {
    if s == [] then 0.0 else s[0] + Sum(s[1..])
  }

  function Mean(s: seq<real>): real
    requires |s| > 0
  {
    Sum(s) / |s| as real
  }

  /** Every element of `s` lies in the closed interval [lo, hi]. */
  predicate InRange(s: seq<real>, lo: real, hi: real)
  {
    forall i :: 0 <= i < |s| ==> lo <= s[i] <= hi
  }

  function SquaredDeviations(s: seq<real>, m: real): (d: seq<real>)
    ensures |d| == |s|
  {
    seq(|s|, i requires 0 <= i < |s| => (s[i] - m) * (s[i] - m))
  }

  /** Population variance, numpy's `std(s) ** 2`. */
  function Variance(s: seq<real>): real
    requires |s| > 0
  {
    Mean(SquaredDeviations(s, Mean(s)))
  }

  function AbsDeviations(s: seq<real>, m: real): (d: seq<real>)
    ensures |d| == |s|
  {
    seq(|s|, i requires 0 <= i < |s| => Abs(s[i] - m))
  }

  /** numpy's `min`. */
  function MinOf(s: seq<real>): (m: real)
    requires |s| > 0
    ensures m in s
    ensures forall i :: 0 <= i < |s| ==> m <= s[i]
  {
    if |s| == 1 then s[0]
    else
      var rest := MinOf(s[1..]);
      if s[0] < rest then s[0] else rest
  }

  /** numpy's `max`. */
  function MaxOf(s: seq<real>): (m: real)
    requires |s| > 0
    ensures m in s
    ensures forall i :: 0 <= i < |s| ==> s[i] <= m
  {
    if |s| == 1 then s[0]
    else
      var rest := MaxOf(s[1..]);
      if s[0] > rest then s[0] else rest
  }

  lemma InRangeOfMinMax(s: seq<real>)
    requires |s| > 0
    ensures InRange(s, MinOf(s), MaxOf(s))
  {
  }

  predicate Sorted(s: seq<real>)
  {
    forall i, j :: 0 <= i < j < |s| ==> s[i] <= s[j]
  }

  function Insert(x: real, s: seq<real>): seq<real>
  {
    if s == [] || x <= s[0] then [x] + s
    else [s[0]] + Insert(x, s[1..])
  }

  lemma {:induction false} InsertPermutes(x: real, s: seq<real>)
    ensures multiset(Insert(x, s)) == multiset(s) + multiset{x}
  {
    if s != [] && x > s[0] {
      assert s == [s[0]] + s[1..];
      InsertPermutes(x, s[1..]);
    }
  }

  lemma {:induction false} InsertSorted(x: real, s: seq<real>)
    requires Sorted(s)
    ensures Sorted(Insert(x, s))
  {
    if s != [] && x > s[0] {
      InsertSorted(x, s[1..]);
      InsertPermutes(x, s[1..]);
      var rest := Insert(x, s[1..]);
      forall k | 0 <= k < |rest|
        ensures s[0] <= rest[k]
      {
        assert rest[k] in multiset(rest);
        assert rest[k] in multiset(s[1..]) + multiset{x};
        if rest[k] != x {
          assert rest[k] in s[1..];
        }
      }
    }
  }

  /** Ascending order, by insertion. */
  function Sort(s: seq<real>): seq<real>
  {
    if s == [] then [] else Insert(s[0], Sort(s[1..]))
  }

  /** `Sort` returns an ascending permutation of its input. */
  lemma {:induction false} SortSpec(s: seq<real>)
    ensures |Sort(s)| == |s|
    ensures multiset(Sort(s)) == multiset(s)
    ensures Sorted(Sort(s))
  {
    if s != [] {
      assert s == [s[0]] + s[1..];
      SortSpec(s[1..]);
      InsertSorted(s[0], Sort(s[1..]));
      InsertPermutes(s[0], Sort(s[1..]));
      assert multiset(s) == multiset(s[1..]) + multiset{s[0]};
      assert |Sort(s)| == |multiset(Sort(s))|;
    }
  }

  /** numpy's `median`. */
  function Median(s: seq<real>): real
    requires |s| > 0
  {
    SortSpec(s);
    var t := Sort(s);
    var k := |t| / 2;
    if |t| % 2 == 1 then t[k] else (t[k - 1] + t[k]) / 2.0
  }

  /** Median absolute deviation: the median distance of the values from their median. */
  function Mad(s: seq<real>): real
    requires |s| > 0
  {
    Median(AbsDeviations(s, Median(s)))
  }

  // ---------------------------------------------------------------------
  // Lemmas

  lemma {:induction false} SumAppend(a: seq<real>, b: seq<real>)
    ensures Sum(a + b) == Sum(a) + Sum(b)
  {
    if a == [] {
      assert a + b == b;
    } else {
      assert (a + b)[1..] == a[1..] + b;
      SumAppend(a[1..], b);
    }
  }

  lemma {:induction false} SumInRange(s: seq<real>, lo: real, hi: real)
    requires InRange(s, lo, hi)
    ensures |s| as real * lo <= Sum(s) <= |s| as real * hi
  {
    if s != [] {
      SumInRange(s[1..], lo, hi);
    }
  }

  /** A permutation of values in [lo, hi] has its values in [lo, hi]. */
  lemma InRangePermutation(s: seq<real>, t: seq<real>, lo: real, hi: real)
    requires multiset(s) == multiset(t)
    requires InRange(s, lo, hi)
    ensures InRange(t, lo, hi)
  {
    forall i | 0 <= i < |t|
      ensures lo <= t[i] <= hi
    {
      assert t[i] in multiset(t);
      assert t[i] in multiset(s);
      var j :| 0 <= j < |s| && s[j] == t[i];
    }
  }

  lemma MeanInRange(s: seq<real>, lo: real, hi: real)
    requires |s| > 0
    requires InRange(s, lo, hi)
    ensures lo <= Mean(s) <= hi
  {
    SumInRange(s, lo, hi);
    var n := |s| as real;
    assert n * lo <= Sum(s) <= n * hi;
    assert Sum(s) / n >= lo by {
      assert Sum(s) >= lo * n;
    }
    assert Sum(s) / n <= hi by {
      assert Sum(s) <= hi * n;
    }
  }

  /** The median of values in [lo, hi] lies in [lo, hi]. */
  lemma MedianInRange(s: seq<real>, lo: real, hi: real)
    requires |s| > 0
    requires InRange(s, lo, hi)
    ensures lo <= Median(s) <= hi
  {
    SortSpec(s);
    InRangePermutation(s, Sort(s), lo, hi);
  }

  /** The median of a window of equal values is that value. */
  lemma MedianOfConstant(s: seq<real>, c: real)
    requires |s| > 0
    requires forall i :: 0 <= i < |s| ==> s[i] == c
    ensures Median(s) == c
  {
    MedianInRange(s, c, c);
  }

  lemma VarianceNonNegative(s: seq<real>)
    requires |s| > 0
    ensures Variance(s) >= 0.0
  {
    var m := Mean(s);
    var d := SquaredDeviations(s, m);
    forall i | 0 <= i < |d|
      ensures d[i] >= 0.0
    {
      var x := s[i] - m;
      assert d[i] == x * x;
    }
    MeanNonNegative(d);
  }

  lemma {:induction false} MeanNonNegative(s: seq<real>)
    requires |s| > 0
    requires forall i :: 0 <= i < |s| ==> s[i] >= 0.0
    ensures Mean(s) >= 0.0
  {
    MeanInRange(s, 0.0, MaxOf(s));
  }

  lemma MadNonNegative(s: seq<real>)
    requires |s| > 0
    ensures Mad(s) >= 0.0
  {
    var d := AbsDeviations(s, Median(s));
    MedianInRange(d, 0.0, MaxOf(d));
  }

  // ---------------------------------------------------------------------
  // Order facts about products and quotients, used by the filters' proofs

  lemma MulMonotone(c: real, a: real, b: real)
    requires c >= 0.0 && a <= b
    ensures c * a <= c * b
  {
    assert c * b - c * a == c * (b - a);
  }

  lemma MulStrictMonotone(c: real, a: real, b: real)
    requires c > 0.0 && a < b
    ensures c * a < c * b
  {
    assert c * b - c * a == c * (b - a);
  }

  lemma DivBelowOne(a: real, d: real)
    requires 0.0 < a < d
    ensures 0.0 < a / d < 1.0
  {
    var q := a / d;
    assert q * d == a;
    if q >= 1.0 {
      MulMonotone(d, 1.0, q);
    }
    if q <= 0.0 {
      MulMonotone(d, q, 0.0);
    }
  }

  lemma DivMonotone(a: real, b: real, d: real)
    requires a < b && d > 0.0
    ensures a / d < b / d
  {
    var qa, qb := a / d, b / d;
    assert qa * d == a && qb * d == b;
    if qb <= qa {
      MulMonotone(d, qb, qa);
    }
  }

  lemma DivSelf(d: real)
    requires d > 0.0
    ensures d / d == 1.0
  {
    var q := d / d;
    assert q * d == d;
    if q < 1.0 {
      MulStrictMonotone(d, q, 1.0);
    } else if q > 1.0 {
      MulStrictMonotone(d, 1.0, q);
    }
  }
}
