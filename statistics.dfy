/**
 * The demand-statistics estimator: population mean and population standard
 * deviation of a sequence of observations (numpy's `mean` and `std`, which
 * divide by the number of observations).
 */
module Statistics {
  import opened Results

  /** A non-negative real number. */
  type NonNegReal = x: real | x >= 0.0

  /**
   * The non-negative square root of `square`, kept in exact form. Dafny's
   * reals have no square-root operation, so a standard deviation is carried
   * as the variance it is the root of.
   */
  datatype Root = Sqrt(square: NonNegReal)

  /** The product of two non-negative reals, with the sign facts the proofs below use. */
  function Product(a: NonNegReal, b: NonNegReal): (p: NonNegReal)
    ensures p == 0.0 <==> a == 0.0 || b == 0.0
    ensures a <= 1.0 ==> p <= b
    ensures a >= 1.0 ==> p >= b
  {
    a * b
  }

  /** `y * y`, computed as the square of `|y|`. */
  function Square(y: real): (s: NonNegReal)
    ensures s == 0.0 <==> y == 0.0
  {
    var a := if y >= 0.0 then y else -y;
    Product(a, a)
  }

  /** The root `c * sqrt(a)`, which is `sqrt(c * c * a)` because `c >= 0`. */
  function Scale(c: NonNegReal, r: Root): (p: Root)
    ensures p.square == 0.0 <==> c == 0.0 || r.square == 0.0
    ensures c <= 1.0 ==> p.square <= r.square
    ensures c >= 1.0 ==> p.square >= r.square
  {
    Sqrt(Product(Product(c, c), r.square))
  }

  /** The sum of `f(x)` over the observations `x` of `s`. */
  function Total(s: seq<real>, f: real -> real): (t: real)
  {
    if s == [] then 0.0 else f(s[0]) + Total(s[1..], f)
  }

  /** Each observation counted as itself: `Total(s, Identity)` is the plain sum of `s`. */
  function Identity(x: real): (y: real) { x }

  /** The squared distance from `m`, as a function of the observation. */
  function SquaredDeviationFrom(m: real): (f: real -> real)
    ensures forall x :: f(x) == Square(x - m)
  {
    x => Square(x - m)
  }

  /** Population mean. */
  function Mean(s: seq<real>): (m: real)
    requires |s| > 0
  {
    Total(s, Identity) / (|s| as real)
  }

  /** Population variance: the mean squared deviation from the mean. */
  function Variance(s: seq<real>): (v: real)
    requires |s| > 0
    ensures v >= 0.0
  {
    var f := SquaredDeviationFrom(Mean(s));
    TotalAtLeast(s, f, 0.0);
    Total(s, f) / (|s| as real)
  }

  /** Every observation of `s` is the same value. */
  predicate AllEqual(s: seq<real>)
  {
    forall i, j :: 0 <= i < |s| && 0 <= j < |s| ==> s[i] == s[j]
  }

  /** The mean, the standard deviation and the number of observations. */
  datatype Summary = Summary(mean: real, std: Root, count: nat)

  /**
   * `np.mean(s)` and `np.std(s)` together. Over no observations numpy
   * returns NaN, which is `None` here.
   */
  function Estimate(s: seq<real>): (r: Option<Summary>)
    ensures r.None? <==> s == []
    ensures r.Some? ==> r.value.count == |s|
    ensures r.Some? ==> (r.value.std == Sqrt(0.0) <==> AllEqual(s))
  {
    if s == [] then None
    else
      VarianceZeroIff(s);
      Some(Summary(Mean(s), Sqrt(Variance(s)), |s|))
  }

  /** Each integer of `xs` as a real, as numpy converts a list of ints. */
  function AsReals(xs: seq<int>): (r: seq<real>)
    ensures |r| == |xs|
  {
    seq(|xs|, i requires 0 <= i < |xs| => xs[i] as real)
  }

  // ---------------------------------------------------------------------
  // Lemmas

  /** A lower bound on each term bounds the total from below. */
  lemma {:induction false} TotalAtLeast(s: seq<real>, f: real -> real, lo: real)
    requires forall i :: 0 <= i < |s| ==> lo <= f(s[i])
    ensures (|s| as real) * lo <= Total(s, f)
  {
    if s != [] {
      TotalAtLeast(s[1..], f, lo);
      assert (|s| as real) * lo == lo + (|s[1..]| as real) * lo;
    }
  }

  /** An upper bound on each term bounds the total from above. */
  lemma {:induction false} TotalAtMost(s: seq<real>, f: real -> real, hi: real)
    requires forall i :: 0 <= i < |s| ==> f(s[i]) <= hi
    ensures Total(s, f) <= (|s| as real) * hi
  {
    if s != [] {
      TotalAtMost(s[1..], f, hi);
      assert (|s| as real) * hi == hi + (|s[1..]| as real) * hi;
    }
  }

  /** A total of non-negative terms is zero only when every term is zero. */
  lemma {:induction false} TotalZero(s: seq<real>, f: real -> real)
    requires forall i :: 0 <= i < |s| ==> f(s[i]) >= 0.0
    requires Total(s, f) == 0.0
    ensures forall i :: 0 <= i < |s| ==> f(s[i]) == 0.0
  {
    if s != [] {
      TotalAtLeast(s[1..], f, 0.0);
      TotalZero(s[1..], f);
      forall i | 0 < i < |s| ensures f(s[i]) == 0.0 {
        assert s[i] == s[1..][i - 1];
      }
    }
  }

  lemma {:induction false} TotalAppend(a: seq<real>, b: seq<real>, f: real -> real)
    ensures Total(a + b, f) == Total(a, f) + Total(b, f)
  {
    if a == [] {
      assert a + b == b;
    } else {
      assert (a + b)[1..] == a[1..] + b;
      TotalAppend(a[1..], b, f);
    }
  }

  /** Taking out the observation at `k` takes its term out of the total. */
  lemma TotalRemove(t: seq<real>, k: nat, f: real -> real)
    requires k < |t|
    ensures Total(t, f) == f(t[k]) + Total(t[..k] + t[k + 1..], f)
  {
    var before, after := t[..k], t[k + 1..];
    var tail := [t[k]] + after;
    assert t == before + tail;
    assert tail[1..] == after;
    TotalAppend(before, tail, f);
    TotalAppend(before, after, f);
  }

  /** Taking out the observation at `k` takes one copy of it out of the multiset. */
  lemma MultisetRemove(t: seq<real>, k: nat)
    requires k < |t|
    ensures multiset(t[..k] + t[k + 1..]) == multiset(t) - multiset{t[k]}
  {
    assert t == t[..k] + [t[k]] + t[k + 1..];
  }

  /** The total does not depend on the order of the observations. */
  lemma {:induction false} TotalPermutation(s: seq<real>, t: seq<real>, f: real -> real)
    requires multiset(s) == multiset(t)
    ensures Total(s, f) == Total(t, f)
    decreases |s|
  {
    if s == [] {
      assert |t| == |multiset(t)| == 0;
    } else {
      assert s[0] in multiset(t);
      var k :| 0 <= k < |t| && t[k] == s[0];
      MultisetRemove(s, 0);
      MultisetRemove(t, k);
      assert s[..0] + s[1..] == s[1..];
      TotalPermutation(s[1..], t[..k] + t[k + 1..], f);
      TotalRemove(t, k, f);
    }
  }

  /** The mean lies between any lower and upper bound of the observations. */
  lemma MeanWithin(s: seq<real>, lo: real, hi: real)
    requires |s| > 0
    requires forall i :: 0 <= i < |s| ==> lo <= s[i] <= hi
    ensures lo <= Mean(s) <= hi
  {
    TotalAtLeast(s, Identity, lo);
    TotalAtMost(s, Identity, hi);
    var n := |s| as real;
    assert n * lo <= Total(s, Identity) <= n * hi;
    assert Mean(s) * n == Total(s, Identity);
  }

  /** The variance is zero exactly when every observation is the same. */
  lemma VarianceZeroIff(s: seq<real>)
    requires |s| > 0
    ensures Variance(s) == 0.0 <==> AllEqual(s)
  {
    var m := Mean(s);
    var f := SquaredDeviationFrom(m);
    if AllEqual(s) {
      MeanWithin(s, s[0], s[0]);
      TotalAtMost(s, f, 0.0);
    }
    if Variance(s) == 0.0 {
      assert Total(s, f) == Variance(s) * (|s| as real);
      TotalZero(s, f);
    }
  }

  /** Reordering the observations changes neither the mean nor the deviation. */
  lemma EstimateOrderInsensitive(s: seq<real>, t: seq<real>)
    requires multiset(s) == multiset(t)
    ensures Estimate(s) == Estimate(t)
  {
    assert |s| == |multiset(s)| == |multiset(t)| == |t|;
    if s != [] {
      TotalPermutation(s, t, Identity);
      TotalPermutation(s, t, SquaredDeviationFrom(Mean(s)));
    }
  }
}
