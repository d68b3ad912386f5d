/** Arithmetic over finite samples of reals: the sum, the arithmetic mean and the
    population variance (what Python's `sum(xs) / len(xs)`, pandas' rolling mean,
    `np.mean` and the square of `np.std` with its default `ddof=0` compute, read
    over exact reals instead of floating point). */
module Stats {

  /** The sum of a sample, adding from the left as Python's `sum` does. */
  function Sum(s: seq<real>): real
    decreases |s|
  {
    if s == [] then 0.0 else Sum(s[..|s| - 1]) + s[|s| - 1]
  }

  /** The arithmetic mean of a non-empty sample. */
  function Mean(s: seq<real>): real
    requires |s| > 0
  {
    Sum(s) / |s| as real
  }

  /** The sum of the squared deviations of a sample from `m`. */
  function SquaredDeviations(s: seq<real>, m: real): (d: real)
    ensures d >= 0.0
    decreases |s|
  {
    if s == [] then 0.0
    else
      var x := s[|s| - 1] - m;
      AddSquare(SquaredDeviations(s[..|s| - 1], m), x);
      SquaredDeviations(s[..|s| - 1], m) + x * x
  }

  /** The population variance of a non-empty sample: the mean squared deviation
      from the mean. */
  function Variance(s: seq<real>): (v: real)
    requires |s| > 0
    ensures v >= 0.0
  {
    SquaredDeviations(s, Mean(s)) / |s| as real
  }

  /** Every element of the sample is the same value. */
  predicate Constant(s: seq<real>) {
    forall i, j :: 0 <= i < |s| && 0 <= j < |s| ==> s[i] == s[j]
  }

  lemma {:induction false} SumConcat(a: seq<real>, b: seq<real>)
    ensures Sum(a + b) == Sum(a) + Sum(b)
    decreases |b|
  {
    if b == [] {
      assert a + b == a;
    } else {
      var b' := b[..|b| - 1];
      assert (a + b)[..|a + b| - 1] == a + b';
      SumConcat(a, b');
    }
  }

  /** A sample made of `|s|` copies of `c` sums to `|s| * c`. */
  lemma {:induction false} SumOfCopies(s: seq<real>, c: real)
    requires forall i :: 0 <= i < |s| ==> s[i] == c
    ensures Sum(s) == |s| as real * c
    decreases |s|
  {
    if s != [] {
      SumOfCopies(s[..|s| - 1], c);
    }
  }

  /** A non-empty sample whose elements are all below `c` sums to less than `|s| * c`. */
  lemma {:induction false} SumBelow(s: seq<real>, c: real)
    requires |s| > 0
    requires forall i :: 0 <= i < |s| ==> s[i] < c
    ensures Sum(s) < |s| as real * c
    decreases |s|
  {
    if |s| > 1 {
      SumBelow(s[..|s| - 1], c);
    }
  }

  /** A sample whose elements are all at least `c` sums to at least `|s| * c`. */
  lemma {:induction false} SumAtLeast(s: seq<real>, c: real)
    requires forall i :: 0 <= i < |s| ==> c <= s[i]
    ensures |s| as real * c <= Sum(s)
    decreases |s|
  {
    if s != [] {
      SumAtLeast(s[..|s| - 1], c);
    }
  }

  /** The mean of a constant sample is that constant. */
  lemma MeanOfConstant(s: seq<real>)
    requires |s| > 0 && Constant(s)
    ensures Mean(s) == s[0]
  {
    SumOfCopies(s, s[0]);
  }

  /** The squared deviations from `m` vanish when every element equals `m`. */
  lemma {:induction false} SquaredDeviationsOfCopies(s: seq<real>, m: real)
    requires forall i :: 0 <= i < |s| ==> s[i] == m
    ensures SquaredDeviations(s, m) == 0.0
    decreases |s|
  {
    if s != [] {
      SquaredDeviationsOfCopies(s[..|s| - 1], m);
    }
  }

  /** One element above `m` makes the squared deviations positive. */
  lemma {:induction false} SquaredDeviationsPositive(s: seq<real>, m: real, k: nat)
    requires k < |s| && s[k] > m
    ensures SquaredDeviations(s, m) > 0.0
    decreases |s|
  {
    var init, x := s[..|s| - 1], s[|s| - 1] - m;
    if k == |s| - 1 {
      AddProductOfPositives(SquaredDeviations(init, m), x, x);
    } else {
      assert init[k] == s[k];
      SquaredDeviationsPositive(init, m, k);
      AddSquareToPositive(SquaredDeviations(init, m), x);
    }
  }

  /** A sample whose elements are all at most `c`, one of them strictly below,
      sums to less than `|s| * c`. */
  lemma {:induction false} SumStrictlyBelow(s: seq<real>, c: real, k: nat)
    requires k < |s| && s[k] < c
    requires forall i :: 0 <= i < |s| ==> s[i] <= c
    ensures Sum(s) < |s| as real * c
    decreases |s|
  {
    var init := s[..|s| - 1];
    if k == |s| - 1 {
      assert Sum(init) <= |init| as real * c by {
        SumAtMost(init, c);
      }
    } else {
      assert init[k] == s[k];
      SumStrictlyBelow(init, c, k);
    }
  }

  /** A sample whose elements are all at most `c` sums to at most `|s| * c`. */
  lemma {:induction false} SumAtMost(s: seq<real>, c: real)
    requires forall i :: 0 <= i < |s| ==> s[i] <= c
    ensures Sum(s) <= |s| as real * c
    decreases |s|
  {
    if s != [] {
      SumAtMost(s[..|s| - 1], c);
    }
  }

  /** A sample that is not constant has an element strictly above its mean. */
  lemma AboveMean(s: seq<real>) returns (k: nat)
    requires |s| > 0 && !Constant(s)
    ensures k < |s| && s[k] > Mean(s)
  {
    var m := Mean(s);
    assert Sum(s) == m * |s| as real;
    if forall i :: 0 <= i < |s| ==> s[i] <= m {
      var i, j :| 0 <= i < |s| && 0 <= j < |s| && s[i] != s[j];
      var low := if s[i] < m then i else j;
      SumStrictlyBelow(s, m, low);
      assert false;
    }
    k :| 0 <= k < |s| && s[k] > m;
  }

  /* Arithmetic steps the solver does not take on its own when a square is involved. */

  lemma AddSquare(a: real, x: real)
    requires a >= 0.0
    ensures a + x * x >= 0.0
  {
  }

  lemma AddSquareToPositive(a: real, x: real)
    requires a > 0.0
    ensures a + x * x > 0.0
  {
  }

  lemma AddProductOfPositives(a: real, x: real, y: real)
    requires a >= 0.0 && x > 0.0 && y > 0.0
    ensures a + x * y > 0.0
  {
  }

  lemma QuotientAtLeast(a: real, n: real, c: real)
    requires n > 0.0 && a >= n * c
    ensures a / n >= c
  {
    if a / n < c {
      AddProductOfPositives(0.0, c - a / n, n);
      assert false;
    }
  }

  lemma QuotientBelow(a: real, n: real, c: real)
    requires n > 0.0 && a < n * c
    ensures a / n < c
  {
    if a / n > c {
      AddProductOfPositives(0.0, a / n - c, n);
      assert false;
    }
  }

  /** A non-empty sample whose elements are all at least `c` has a mean of at
      least `c`. */
  lemma MeanAtLeast(s: seq<real>, c: real)
    requires |s| > 0
    requires forall i :: 0 <= i < |s| ==> c <= s[i]
    ensures Mean(s) >= c
  {
    SumAtLeast(s, c);
    QuotientAtLeast(Sum(s), |s| as real, c);
  }

  /** A non-empty sample whose elements are all below `c` has a mean below `c`. */
  lemma MeanBelow(s: seq<real>, c: real)
    requires |s| > 0
    requires forall i :: 0 <= i < |s| ==> s[i] < c
    ensures Mean(s) < c
  {
    SumBelow(s, c);
    QuotientBelow(Sum(s), |s| as real, c);
  }

  /** Putting a block with a lower mean in front of a sample lowers its mean. */
  lemma MeanOfConcatBelow(a: seq<real>, b: seq<real>)
    requires |a| > 0 && |b| > 0 && Mean(a) < Mean(b)
    ensures Mean(a + b) < Mean(b)
  {
    var p, q := |a| as real, |b| as real;
    var ma, mb := Mean(a), Mean(b);
    SumConcat(a, b);
    assert Sum(a) == ma * p && Sum(b) == mb * q;
    AddProductOfPositives(0.0, p, mb - ma);
    assert Sum(a + b) < (p + q) * mb;
    QuotientBelow(Sum(a + b), p + q, mb);
  }

  /** The population variance is zero exactly when the sample is constant. */
  lemma VarianceZeroIffConstant(s: seq<real>)
    requires |s| > 0
    ensures Variance(s) == 0.0 <==> Constant(s)
  {
    var m := Mean(s);
    if Constant(s) {
      MeanOfConstant(s);
      SquaredDeviationsOfCopies(s, m);
    } else {
      var k := AboveMean(s);
      SquaredDeviationsPositive(s, m, k);
    }
  }
}
