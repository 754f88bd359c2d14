/** Finite-sequence arithmetic behind every summary the engine computes: sums,
    first differences, interval midpoints, trapezoid panels, and the first index of a
    maximum or minimum. These are the mathematical definitions of the NumPy calls the
    source makes (`np.sum`, `np.diff`, `np.trapz`, `np.argmax`, `np.argmin`). */
module Series {
  import opened Numerics

  function Sum(s: seq<real>): real
    decreases |s|
  {
    if |s| == 0 then 0.0 else Sum(s[..|s| - 1]) + s[|s| - 1]
  }

  predicate NonNegative(s: seq<real>) {
    forall i :: 0 <= i < |s| ==> 0.0 <= s[i]
  }

  predicate NonDecreasing(s: seq<real>) {
    forall i, j :: 0 <= i <= j < |s| ==> s[i] <= s[j]
  }

  /** `np.diff`: consecutive increments; empty for fewer than two samples. */
  function Diff(s: seq<real>): (d: seq<real>)
    ensures |d| == if |s| == 0 then 0 else |s| - 1
  {
    if |s| == 0 then [] else seq(|s| - 1, i requires 0 <= i < |s| - 1 => s[i + 1] - s[i])
  }

  /** `(t[:-1] + t[1:]) / 2`: the midpoint of each sampling interval. */
  function Midpoints(t: seq<real>): (m: seq<real>)
    ensures |m| == |Diff(t)|
  {
    if |t| == 0 then [] else seq(|t| - 1, i requires 0 <= i < |t| - 1 => (t[i] + t[i + 1]) / 2.0)
  }

  /** Element-wise product of two equally long arrays. */
  function Products(a: seq<real>, b: seq<real>): (p: seq<real>)
    requires |a| == |b|
    ensures |p| == |a|
  {
    seq(|a|, i requires 0 <= i < |a| => a[i] * b[i])
  }

  /** The trapezoid over interval [x[i], x[i+1]]. */
  function Panel(y: seq<real>, x: seq<real>, i: nat): real
    requires |y| == |x| && i + 1 < |y|
  {
    0.5 * (y[i] + y[i + 1]) * (x[i + 1] - x[i])
  }

  /** The trapezoid-rule area from sample 0 up to sample j. */
  function RunningTrapz(y: seq<real>, x: seq<real>, j: nat): real
    requires |y| == |x| && j < |y|
  {
    if j == 0 then 0.0 else RunningTrapz(y, x, j - 1) + Panel(y, x, j - 1)
  }

  /** `np.trapz(y, x)`: the trapezoid rule over all samples. */
  function Trapz(y: seq<real>, x: seq<real>): (area: real)
    requires |y| == |x|
    ensures |y| <= 1 ==> area == 0.0
  {
    if |y| == 0 then 0.0 else RunningTrapz(y, x, |y| - 1)
  }

  // ---------------------------------------------------------------- sums

  lemma SumAppend(s: seq<real>, v: real)
    ensures Sum(s + [v]) == Sum(s) + v
  {
    assert (s + [v])[..|s|] == s;
  }

  lemma {:induction false} SumNonNegative(s: seq<real>)
    requires NonNegative(s)
    ensures 0.0 <= Sum(s)
  {
    if |s| > 0 {
      SumNonNegative(s[..|s| - 1]);
    }
  }

  lemma {:induction false} SumMonotone(a: seq<real>, b: seq<real>)
    requires |a| == |b|
    requires forall i :: 0 <= i < |a| ==> a[i] <= b[i]
    ensures Sum(a) <= Sum(b)
  {
    if |a| > 0 {
      SumMonotone(a[..|a| - 1], b[..|b| - 1]);
    }
  }

  /** Sums are linear: Σ (α·a + β·b) = α·Σa + β·Σb. */
  lemma {:induction false} SumLinear(a: seq<real>, b: seq<real>, c: seq<real>, alpha: real, beta: real)
    requires |a| == |b| == |c|
    requires forall i :: 0 <= i < |c| ==> c[i] == alpha * a[i] + beta * b[i]
    ensures Sum(c) == alpha * Sum(a) + beta * Sum(b)
  {
    if |c| > 0 {
      var n := |c| - 1;
      var sa, sb := Sum(a[..n]), Sum(b[..n]);
      assert Sum(a) == sa + a[n] && Sum(b) == sb + b[n] && Sum(c) == Sum(c[..n]) + c[n];
      assert forall i :: 0 <= i < n ==> c[..n][i] == alpha * a[..n][i] + beta * b[..n][i];
      SumLinear(a[..n], b[..n], c[..n], alpha, beta);
      LinearStep(alpha, beta, sa, sb, a[n], b[n]);
    }
  }

  lemma LinearStep(alpha: real, beta: real, sa: real, sb: real, x: real, y: real)
    ensures alpha * (sa + x) + beta * (sb + y) == (alpha * sa + beta * sb) + (alpha * x + beta * y)
  {
    Distribute(alpha, sa, x);
    Distribute(beta, sb, y);
  }

  lemma SumScaled(a: seq<real>, c: seq<real>, alpha: real)
    requires |a| == |c|
    requires forall i :: 0 <= i < |c| ==> c[i] == alpha * a[i]
    ensures Sum(c) == alpha * Sum(a)
  {
    SumLinear(a, a, c, alpha, 0.0);
  }

  /** Every element multiplied by the same factor. */
  function Scale(s: seq<real>, c: real): (r: seq<real>)
    ensures |r| == |s|
    ensures forall i {:trigger r[i]} :: 0 <= i < |s| ==> r[i] == c * s[i]
  {
    seq(|s|, i requires 0 <= i < |s| => c * s[i])
  }

  lemma SumOfScale(s: seq<real>, c: real)
    ensures Sum(Scale(s, c)) == c * Sum(s)
  {
    SumScaled(s, Scale(s, c), c);
  }

  lemma SumZero(s: seq<real>)
    requires forall i :: 0 <= i < |s| ==> s[i] == 0.0
    ensures Sum(s) == 0.0
  {
    SumScaled(s, s, 0.0);
  }

  /** A non-negative sequence sums to zero only when every element is zero. */
  lemma {:induction false} NonNegativeSumZero(s: seq<real>)
    requires NonNegative(s) && Sum(s) == 0.0
    ensures forall i :: 0 <= i < |s| ==> s[i] == 0.0
  {
    if |s| > 0 {
      var n := |s| - 1;
      SumNonNegative(s[..n]);
      NonNegativeSumZero(s[..n]);
      assert forall i :: 0 <= i < n ==> s[i] == s[..n][i];
    }
  }

  /** A sum with a single possibly non-zero element is that element. */
  lemma {:induction false} SumSingleNonZero(s: seq<real>, k: int)
    requires 0 <= k < |s|
    requires forall i :: 0 <= i < |s| && i != k ==> s[i] == 0.0
    ensures Sum(s) == s[k]
  {
    var n := |s| - 1;
    if k < n {
      SumSingleNonZero(s[..n], k);
    } else if n > 0 {
      SumZero(s[..n]);
    }
  }

  /** With non-negative weights and values in [lo, hi], each weighted term lies between
      lo and hi times its weight. */
  lemma WeightsBracketed(v: seq<real>, w: seq<real>, lo: real, hi: real)
    requires |v| == |w|
    requires NonNegative(w)
    requires forall i :: 0 <= i < |v| ==> lo <= v[i] <= hi
    ensures Bracketed(w, Products(v, w), lo, hi)
  {
    var weighted := Products(v, w);
    forall i | 0 <= i < |w|
      ensures Scale(w, lo)[i] <= weighted[i] <= Scale(w, hi)[i]
    {
      ScaleBetween(v[i], w[i], lo, hi);
    }
  }



  lemma ScaleBetween(v: real, w: real, lo: real, hi: real)
    requires 0.0 <= w && lo <= v <= hi
    ensures lo * w <= v * w <= hi * w
  {
    assert 0.0 <= (v - lo) * w;
    assert 0.0 <= (hi - v) * w;
  }

  lemma Distribute(c: real, a: real, b: real)
    ensures c * (a + b) == c * a + c * b
  {
  }

  /** Dividing by a positive total keeps a bracketed numerator's bracket. */
  lemma QuotientBetween(d: real, s: real, lo: real, hi: real)
    requires 0.0 < s && lo * s <= d <= hi * s
    ensures lo <= d / s <= hi
  {
    assert d / s * s == d;
  }

  /** Increments telescope: Σ diff(s) = s[last] − s[0]. */
  lemma {:induction false} DiffTelescopes(s: seq<real>)
    requires |s| > 0
    ensures Sum(Diff(s)) == s[|s| - 1] - s[0]
  {
    if |s| > 1 {
      var n := |s| - 1;
      DiffTelescopes(s[..n]);
      assert Diff(s)[..n - 1] == Diff(s[..n]);
    }
  }

  /** Ordered neighbours give an ordered sequence. */
  lemma {:induction false} StepsNonDecreasing(s: seq<real>)
    requires forall i :: 0 < i < |s| ==> s[i - 1] <= s[i]
    ensures NonDecreasing(s)
    decreases |s|
  {
    if |s| > 1 {
      var n := |s| - 1;
      StepsNonDecreasing(s[..n]);
      forall i, j | 0 <= i <= j < |s|
        ensures s[i] <= s[j]
      {
        if j == n && i < n {
          assert s[..n][i] <= s[..n][n - 1];
        } else if j < n {
          assert s[..n][i] <= s[..n][j];
        }
      }
    }
  }

  lemma DiffNonNegative(s: seq<real>)
    requires NonDecreasing(s)
    ensures NonNegative(Diff(s))
  {
  }

  // ---------------------------------------------------------------- trapezoids

  /** The running trapezoid area at every sample: the cumulative integral. */
  function CumulativeTrapz(y: seq<real>, x: seq<real>): (cum: seq<real>)
    requires |y| == |x|
    ensures |cum| == |y|
  {
    seq(|y|, i requires 0 <= i < |y| => RunningTrapz(y, x, i))
  }

  /** The first j trapezoid panels. */
  function Panels(y: seq<real>, x: seq<real>, j: nat): (p: seq<real>)
    requires |y| == |x| && j < |y|
    ensures |p| == j
    ensures forall i :: 0 <= i < j ==> p[i] == Panel(y, x, i)
  {
    seq(j, i requires 0 <= i < j => Panel(y, x, i))
  }

  /** The running area is the sum of its panels. */
  lemma {:induction false} RunningTrapzIsPanelSum(y: seq<real>, x: seq<real>, j: nat)
    requires |y| == |x| && j < |y|
    ensures RunningTrapz(y, x, j) == Sum(Panels(y, x, j))
  {
    if j > 0 {
      RunningTrapzIsPanelSum(y, x, j - 1);
      assert Panels(y, x, j)[..j - 1] == Panels(y, x, j - 1);
    }
  }

  lemma PanelNonNegative(y: seq<real>, x: seq<real>, i: nat)
    requires |y| == |x| && i + 1 < |y|
    requires 0.0 <= y[i] && 0.0 <= y[i + 1] && x[i] <= x[i + 1]
    ensures 0.0 <= Panel(y, x, i)
  {
    assert 0.0 <= y[i] + y[i + 1];
  }

  /** For non-negative samples over non-decreasing abscissae the running trapezoid
      area never decreases. */
  lemma {:induction false} RunningTrapzMonotone(y: seq<real>, x: seq<real>, i: nat, j: nat)
    requires |y| == |x| && i <= j < |y|
    requires NonNegative(y) && NonDecreasing(x)
    ensures RunningTrapz(y, x, i) <= RunningTrapz(y, x, j)
    decreases j - i
  {
    if i < j {
      RunningTrapzMonotone(y, x, i, j - 1);
      PanelNonNegative(y, x, j - 1);
    }
  }

  lemma TrapzNonNegative(y: seq<real>, x: seq<real>)
    requires |y| == |x|
    requires NonNegative(y) && NonDecreasing(x)
    ensures 0.0 <= Trapz(y, x)
  {
    if |y| > 0 {
      RunningTrapzMonotone(y, x, 0, |y| - 1);
    }
  }

  lemma PanelBetween(y: seq<real>, x: seq<real>, i: nat, lo: real, hi: real)
    requires |y| == |x| && i + 1 < |y|
    requires x[i] <= x[i + 1]
    requires lo <= y[i] <= hi && lo <= y[i + 1] <= hi
    ensures lo * (x[i + 1] - x[i]) <= Panel(y, x, i) <= hi * (x[i + 1] - x[i])
  {
    var sum, width := y[i] + y[i + 1], x[i + 1] - x[i];
    assert 0.0 <= (sum - 2.0 * lo) * width;
    assert 0.0 <= (2.0 * hi - sum) * width;
  }

  /** Samples bounded by [lo, hi] over non-decreasing abscissae give a running area
      inside the bounding rectangles lo·(x_j − x_0) and hi·(x_j − x_0). */
  lemma {:induction false} RunningTrapzBetween(y: seq<real>, x: seq<real>, j: nat, lo: real, hi: real)
    requires |y| == |x| && j < |y|
    requires NonDecreasing(x)
    requires forall i :: 0 <= i < |y| ==> lo <= y[i] <= hi
    ensures lo * (x[j] - x[0]) <= RunningTrapz(y, x, j) <= hi * (x[j] - x[0])
  {
    if j > 0 {
      RunningTrapzBetween(y, x, j - 1, lo, hi);
      PanelBetween(y, x, j - 1, lo, hi);
      var before, step := x[j - 1] - x[0], x[j] - x[j - 1];
      assert x[j] - x[0] == before + step;
      Distribute(lo, before, step);
      Distribute(hi, before, step);
    }
  }

  /** Every element of q lies between lo and hi times the matching element of p. */
  predicate Bracketed(p: seq<real>, q: seq<real>, lo: real, hi: real) {
    |p| == |q| &&
    forall i {:trigger Scale(p, lo)[i]} {:trigger Scale(p, hi)[i]} :: 0 <= i < |p| ==> Scale(p, lo)[i] <= q[i] <= Scale(p, hi)[i]
  }

  lemma BracketedFrom(p: seq<real>, q: seq<real>, lo: real, hi: real)
    requires |p| == |q| && forall i :: 0 <= i < |p| ==> lo * p[i] <= q[i] <= hi * p[i]
    ensures Bracketed(p, q, lo, hi)
  {
  }


  /** Termwise bounds lo·p[i] ≤ q[i] ≤ hi·p[i] carry over to the sums. */
  lemma SumSandwich(p: seq<real>, q: seq<real>, lo: real, hi: real)
    requires Bracketed(p, q, lo, hi)
    ensures lo * Sum(p) <= Sum(q) <= hi * Sum(p)
  {
    var low, high := Scale(p, lo), Scale(p, hi);
    assert Sum(low) <= Sum(q) by { SumMonotone(low, q); }
    assert Sum(q) <= Sum(high) by { SumMonotone(q, high); }
    SumOfScale(p, lo);
    SumOfScale(p, hi);
  }

  /** A sum of q whose terms lie between lo and hi times those of p, divided by a positive
      sum of p, is a weighted mean and so lies in [lo, hi]. */
  lemma WeightedMeanBetween(p: seq<real>, q: seq<real>, lo: real, hi: real)
    requires Bracketed(p, q, lo, hi) && 0.0 < Sum(p)
    ensures lo <= Sum(q) / Sum(p) <= hi
  {
    SumSandwich(p, q, lo, hi);
    QuotientBetween(Sum(q), Sum(p), lo, hi);
  }



  // ---------------------------------------------------------------- arg max / arg min

  /** `np.argmax`: the first index at which the maximum is attained. */
  function ArgMax(s: seq<real>): (k: nat)
    requires |s| > 0
    ensures k < |s|
    ensures forall i :: 0 <= i < |s| ==> s[i] <= s[k]
    ensures forall i :: 0 <= i < k ==> s[i] < s[k]
    decreases |s|
  {
    if |s| == 1 then 0
    else
      var k := ArgMax(s[..|s| - 1]);
      if s[k] < s[|s| - 1] then |s| - 1 else k
  }

  /** `np.max`. */
  function MaxOf(s: seq<real>): (m: real)
    requires |s| > 0
    ensures forall i :: 0 <= i < |s| ==> s[i] <= m
    ensures exists i :: 0 <= i < |s| && s[i] == m
  {
    s[ArgMax(s)]
  }

  /** `np.argmin`: the first index at which the minimum is attained. */
  function ArgMin(s: seq<real>): (k: nat)
    requires |s| > 0
    ensures k < |s|
    ensures forall i :: 0 <= i < |s| ==> s[k] <= s[i]
    ensures forall i :: 0 <= i < k ==> s[k] < s[i]
    decreases |s|
  {
    if |s| == 1 then 0
    else
      var k := ArgMin(s[..|s| - 1]);
      if s[|s| - 1] < s[k] then |s| - 1 else k
  }
}
