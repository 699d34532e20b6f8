/** Moving z-scores (rdb/results/tfbinning.go) over the reals. A standard deviation is represented by its
    square, the variance, and a score by its deviation and variance, so no square root is needed. */
module ZScores {

  datatype BinData = BinData(dateBucket: int, freq: int, base: int, word: string)

  /** deviation / sqrt(variance); `Undefined` where Go divides 0 by 0 and gets NaN. */
  datatype ZScore = Undefined | Score(deviation: real, variance: real)

  function SumFreq(data: seq<BinData>): int {
    if data == [] then 0 else SumFreq(data[..|data| - 1]) + data[|data| - 1].freq
  }

  function Mean(data: seq<BinData>): real
    requires data != []
  {
    SumFreq(data) as real / |data| as real
  }

  function Deviation(d: BinData, mean: real): real {
    d.freq as real - mean
  }

  function SumDev(data: seq<BinData>, mean: real): real {
    if data == [] then 0.0 else SumDev(data[..|data| - 1], mean) + Deviation(data[|data| - 1], mean)
  }

  function SumSquares(data: seq<BinData>, mean: real): real {
    if data == [] then 0.0
    else
      var d := Deviation(data[|data| - 1], mean);
      SumSquares(data[..|data| - 1], mean) + d * d
  }

  /** The sample variance. */
  function Variance(data: seq<BinData>): real
    requires |data| > 1
  {
    SumSquares(data, Mean(data)) / (|data| - 1) as real
  }

  /** The score of the first item within its window. */
  function FirstScore(window: seq<BinData>): ZScore
    requires |window| > 1
  {
    if Variance(window) == 0.0 then Undefined
    else Score(Deviation(window[0], Mean(window)), Variance(window))
  }

  /** |score| < limit */
  predicate Below(z: ZScore, limit: real) {
    z.Score? && z.deviation * z.deviation < limit * limit * z.variance
  }

  /** The comparison of squares is that of the absolute score: `sd` is the standard deviation. */
  lemma BelowMeans(deviation: real, sd: real, limit: real)
    requires sd > 0.0 && limit > 0.0
    ensures Below(Score(deviation, sd * sd), limit) <==> -limit < deviation / sd < limit
  {
    var z := deviation / sd;
    assert z * sd == deviation;
    assert deviation * deviation == z * z * (sd * sd) by {
      assert deviation * deviation == (z * sd) * (z * sd);
    }
    NonZeroSquare(sd, sd * sd);
    ScaledSquares(z, limit, sd * sd);
    SquareBelow(z, limit);
  }

  lemma ScaledSquares(z: real, limit: real, v: real)
    requires v > 0.0
    ensures z * z * v < limit * limit * v <==> z * z < limit * limit
  {
    var d := limit * limit - z * z;
    assert d * v == limit * limit * v - z * z * v;
    if d * v > 0.0 {
      assert d > 0.0;
    }
  }

  lemma SquareBelow(z: real, limit: real)
    requires limit > 0.0
    ensures z * z < limit * limit <==> -limit < z < limit
  {
    assert (limit - z) * (limit + z) == limit * limit - z * z;
  }

  predicate Constant(window: seq<BinData>) {
    forall i, j | 0 <= i < j < |window| :: window[i].freq == window[j].freq
  }

  // ----- the loops -----

  method BdMean(data: seq<BinData>) returns (ans: real)
    requires data != []
    ensures ans == Mean(data)
  {
    ans := 0.0;
    for i := 0 to |data|
      invariant ans == SumFreq(data[..i]) as real
    {
      assert data[..i + 1][..i] == data[..i];
      ans := ans + data[i].freq as real;
    }
    assert data[..|data|] == data;
    ans := ans / |data| as real;
  }

  /** The square of the standard deviation. */
  method BdVariance(data: seq<BinData>) returns (variance: real)
    requires |data| > 1
    ensures variance == Variance(data)
  {
    var avg := BdMean(data);
    var k := (|data| - 1) as real;
    variance := 0.0;
    for i := 0 to |data|
      invariant variance * k == SumSquares(data[..i], avg)
    {
      assert data[..i + 1][..i] == data[..i];
      var d := data[i].freq as real - avg;
      AddQuotient(variance, d * d, k);
      variance := variance + d * d / k;
    }
    assert data[..|data|] == data;
    Quotient(variance, k);
  }

  lemma AddQuotient(s: real, a: real, k: real)
    requires k != 0.0
    ensures (s + a / k) * k == s * k + a
  {
  }

  lemma Quotient(s: real, k: real)
    requires k != 0.0
    ensures s == s * k / k
  {
  }

  method BdMovingZScores(data: seq<BinData>, windowSize: nat) returns (ans: seq<ZScore>)
    requires 1 < windowSize <= |data|
    ensures |ans| == |data| - windowSize + 1
    ensures forall i | 0 <= i < |ans| :: ans[i] == FirstScore(data[i..i + windowSize])
  {
    ans := [];
    for i := 0 to |data| - windowSize + 1
      invariant |ans| == i
      invariant forall j | 0 <= j < i :: ans[j] == FirstScore(data[j..j + windowSize])
    {
      var window := data[i..i + windowSize];
      var variance := BdVariance(window);
      var mean := BdMean(window);
      var z := if variance == 0.0 then Undefined else Score(data[i].freq as real - mean, variance);
      ans := ans + [z];
    }
  }

  method BdNumZeroFreq(data: seq<BinData>) returns (ans: nat)
    ensures ans == NumZero(data)
  {
    ans := 0;
    for i := 0 to |data|
      invariant ans == NumZero(data[..i])
    {
      assert data[..i + 1][..i] == data[..i];
      if data[i].freq == 0 {
        ans := ans + 1;
      }
    }
    assert data[..|data|] == data;
  }

  /** So many items have no hit. */
  lemma {:induction false} NumZeroIs(data: seq<BinData>)
    ensures NumZero(data) == |set i | 0 <= i < |data| && data[i].freq == 0|
  {
    var zeros := set i | 0 <= i < |data| && data[i].freq == 0;
    if data == [] {
      assert zeros == {};
    } else {
      var n := |data| - 1;
      var before := set i | 0 <= i < |data[..n]| && data[..n][i].freq == 0;
      NumZeroIs(data[..n]);
      assert zeros == if data[n].freq == 0 then before + {n} else before;
    }
  }

  function NumZero(data: seq<BinData>): nat {
    if data == [] then 0
    else NumZero(data[..|data| - 1]) + if data[|data| - 1].freq == 0 then 1 else 0
  }

  // ----- the bound on a score -----

  lemma {:induction false} SumDevIs(data: seq<BinData>, mean: real)
    ensures SumDev(data, mean) == SumFreq(data) as real - |data| as real * mean
  {
    if data != [] {
      var n := |data| - 1;
      SumDevIs(data[..n], mean);
      assert |data| as real * mean == n as real * mean + mean;
    }
  }

  lemma DeviationsCancel(data: seq<BinData>)
    requires data != []
    ensures SumDev(data, Mean(data)) == 0.0
  {
    SumDevIs(data, Mean(data));
  }

  lemma Square(x: real)
    ensures x * x >= 0.0
  {
  }

  /** n a^2 + (n+1) q >= 2 a s + s^2 whenever s^2 <= n q. */
  lemma CauchyStep(n: real, a: real, s: real, q: real)
    requires n >= 1.0 && s * s <= n * q
    ensures (s + a) * (s + a) <= (n + 1.0) * (q + a * a)
  {
    var d := n * a - s;
    Square(d);
    assert d * d == n * n * a * a - 2.0 * n * a * s + s * s;
    var gap := (n + 1.0) * (q + a * a) - (s + a) * (s + a);
    assert gap == n * q + q + n * a * a - s * s - 2.0 * a * s;
    assert n * gap == n * (n * q - s * s) + (n * q - s * s) + d * d by {
      assert n * gap == n * (n * q) + n * q + n * n * a * a - n * (s * s) - 2.0 * n * a * s;
    }
    assert n * (n * q - s * s) >= 0.0;
    PositiveFactor(n, gap);
  }

  lemma PositiveFactor(n: real, x: real)
    requires n > 0.0
    ensures n * x >= 0.0 ==> x >= 0.0
    ensures n * x > 0.0 <==> x > 0.0
  {
  }

  /** Cauchy-Schwarz: the square of a sum of deviations is at most their number times their squares. */
  lemma {:induction false} SumDevBound(data: seq<BinData>, mean: real)
    ensures SumDev(data, mean) * SumDev(data, mean) <= |data| as real * SumSquares(data, mean)
    ensures SumSquares(data, mean) >= 0.0
  {
    if data != [] {
      var n := |data| - 1;
      var a := Deviation(data[n], mean);
      SumDevBound(data[..n], mean);
      Square(a);
      if n > 0 {
        CauchyStep(n as real, a, SumDev(data[..n], mean), SumSquares(data[..n], mean));
      }
    }
  }

  lemma {:induction false} FirstApart(data: seq<BinData>, mean: real)
    requires data != []
    ensures SumDev(data, mean) == Deviation(data[0], mean) + SumDev(data[1..], mean)
    ensures SumSquares(data, mean) ==
            Deviation(data[0], mean) * Deviation(data[0], mean) + SumSquares(data[1..], mean)
  {
    var n := |data| - 1;
    if n > 0 {
      FirstApart(data[..n], mean);
      assert data[1..][..n - 1] == data[..n][1..];
    }
  }

  /** w * deviation^2 <= (w - 1)^2 * variance: no item of a window of w scores above (w - 1) / sqrt(w). */
  lemma ScoreBound(window: seq<BinData>)
    requires |window| > 1
    ensures var w, d := |window| as real, Deviation(window[0], Mean(window));
            w * (d * d) <= (w - 1.0) * (w - 1.0) * Variance(window)
  {
    var mean := Mean(window);
    var w, d := |window| as real, Deviation(window[0], mean);
    var rest := SumDev(window[1..], mean);
    var q := SumSquares(window[1..], mean);
    DeviationsCancel(window);
    FirstApart(window, mean);
    SumDevBound(window[1..], mean);
    assert rest == -d;
    assert rest * rest == d * d;
    assert d * d <= (w - 1.0) * q;
    var s := SumSquares(window, mean);
    assert s == d * d + q;
    assert w * (d * d) <= (w - 1.0) * s by {
      assert (w - 1.0) * s == (w - 1.0) * (d * d) + (w - 1.0) * q;
      assert w * (d * d) == (w - 1.0) * (d * d) + d * d;
    }
    assert s == Variance(window) * (w - 1.0);
    assert (w - 1.0) * (w - 1.0) * Variance(window) == (w - 1.0) * s;
  }

  lemma VarianceNotNegative(window: seq<BinData>)
    requires |window| > 1
    ensures Variance(window) >= 0.0
  {
    SumDevBound(window, Mean(window));
  }

  /** In a window of at most 14 items no defined score reaches 3.5. */
  lemma SmallWindowStaysBelow(window: seq<BinData>)
    requires 1 < |window| <= 14
    ensures FirstScore(window) == Undefined || Below(FirstScore(window), 3.5)
  {
    var w, v := |window| as real, Variance(window);
    var d := Deviation(window[0], Mean(window));
    if v != 0.0 {
      ScoreBound(window);
      VarianceNotNegative(window);
      assert (w - 1.0) * (w - 1.0) < 12.25 * w by { SquaresUpTo14(|window|); }
      var x := d * d;
      assert w * x <= ((w - 1.0) * (w - 1.0)) * v;
      Strictly(w, x, (w - 1.0) * (w - 1.0), v);
    }
  }

  lemma SquaresUpTo14(w: nat)
    requires 1 < w <= 14
    ensures (w as real - 1.0) * (w as real - 1.0) < 12.25 * w as real
  {
    assert w == 2 || w == 3 || w == 4 || w == 5 || w == 6 || w == 7 || w == 8 || w == 9 || w == 10
        || w == 11 || w == 12 || w == 13 || w == 14;
  }

  lemma Strictly(w: real, x: real, b: real, v: real)
    requires w > 0.0 && v > 0.0 && w * x <= b * v && b < 12.25 * w
    ensures x < 12.25 * v
  {
    assert b * v < 12.25 * w * v;
    assert w * (12.25 * v - x) > 0.0;
    PositiveFactor(w, 12.25 * v - x);
  }

  /** The bound is attained by a lone hit at the start of the window, so a window of 15 or more items
      can reach 3.5. */
  lemma SpikeAttainsBound(window: seq<BinData>)
    requires |window| > 1 && window[0].freq == 1 && forall i | 1 <= i < |window| :: window[i].freq == 0
    ensures var w, d := |window| as real, Deviation(window[0], Mean(window));
            w * (d * d) == (w - 1.0) * (w - 1.0) * Variance(window)
    ensures |window| >= 15 ==> FirstScore(window).Score? && !Below(FirstScore(window), 3.5)
  {
    var w, rest := |window| as real, window[1..];
    SumDevIs(window, 0.0);
    SumDevIs(rest, 0.0);
    FirstApart(window, 0.0);
    SumOfConstant(rest, 0);
    var mean := Mean(window);
    assert mean == 1.0 / w;
    var d := Deviation(window[0], mean);
    FirstApart(window, mean);
    ConstantSquares(rest, 0, mean, mean * mean);
    var s := SumSquares(window, mean);
    assert s == d * d + (w - 1.0) * (mean * mean);
    SpikeArithmetic(w, mean, d, s, Variance(window));
    if |window| >= 15 {
      assert (w - 1.0) * (w - 1.0) >= 12.25 * w by {
        assert (w - 1.0) * (w - 1.0) == (w - 15.0) * (w + 13.0) + 196.0;
        assert (w - 15.0) * (w + 13.0) >= (w - 15.0) * 28.0;
      }
      AtLeast(w, d * d, (w - 1.0) * (w - 1.0), Variance(window));
    }
  }

  lemma SpikeArithmetic(w: real, m: real, d: real, s: real, v: real)
    requires w > 1.0 && m == 1.0 / w && d == 1.0 - m && s == d * d + (w - 1.0) * (m * m) && v == s / (w - 1.0)
    ensures v == m && v > 0.0
    ensures w * (d * d) == (w - 1.0) * (w - 1.0) * v
  {
    assert w * m == 1.0;
    assert d == (w - 1.0) * m by { assert (w - 1.0) * m == w * m - m; }
    var k := w - 1.0;
    assert d * d == k * (k * (m * m)) by { assert (k * m) * (k * m) == k * (k * (m * m)); }
    assert s == k * ((k + 1.0) * (m * m)) by {
      assert (k + 1.0) * (m * m) == k * (m * m) + m * m;
      assert k * ((k + 1.0) * (m * m)) == k * (k * (m * m)) + k * (m * m);
    }
    assert (k + 1.0) * (m * m) == m by { assert w * (m * m) == (w * m) * m; }
    assert s == k * m;
    assert v == m;
    assert w * (d * d) == k * (k * (w * (m * m))) by { assert d * d == k * (k * (m * m)); }
  }

  lemma AtLeast(w: real, x: real, b: real, v: real)
    requires w > 0.0 && v > 0.0 && w * x == b * v && b >= 12.25 * w
    ensures x >= 12.25 * v
  {
    assert b * v >= 12.25 * w * v;
    assert w * (x - 12.25 * v) >= 0.0;
    PositiveFactor(w, x - 12.25 * v);
  }

  /** A score is undefined exactly when its window is constant. */
  lemma UndefinedIsConstant(window: seq<BinData>)
    requires |window| > 1
    ensures FirstScore(window) == Undefined <==> Constant(window)
  {
    var mean := Mean(window);
    if Constant(window) {
      SumOfConstant(window, window[0].freq);
      assert mean == window[0].freq as real by {
        assert SumFreq(window) as real == |window| as real * window[0].freq as real;
      }
      ConstantSquares(window, window[0].freq, mean, 0.0);
    }
    if Variance(window) == 0.0 {
      var k := (|window| - 1) as real;
      assert SumSquares(window, mean) == 0.0 by { assert Variance(window) * k == SumSquares(window, mean); }
      forall i | 0 <= i < |window| ensures window[i].freq as real == mean { NoSquares(window, mean, i); }
    }
  }

  lemma {:induction false} SumOfConstant(data: seq<BinData>, f: int)
    requires forall i | 0 <= i < |data| :: data[i].freq == f
    ensures SumFreq(data) == |data| * f
  {
    if data != [] {
      SumOfConstant(data[..|data| - 1], f);
    }
  }

  lemma {:induction false} ConstantSquares(data: seq<BinData>, f: int, mean: real, dd: real)
    requires forall i | 0 <= i < |data| :: data[i].freq == f
    requires dd == (f as real - mean) * (f as real - mean)
    ensures SumSquares(data, mean) == |data| as real * dd
  {
    if data != [] {
      ConstantSquares(data[..|data| - 1], f, mean, dd);
    }
  }

  lemma PositiveProduct(n: real, x: real, p: real)
    requires n > 0.0 && x > 0.0 && p == n * x
    ensures p > 0.0
  {
  }

  lemma NegatedSquare(d: real, e: real)
    requires e == -d
    ensures d * d == e * e
  {
  }

  lemma NonZeroSquare(d: real, dd: real)
    requires dd == d * d
    ensures dd >= 0.0 && (d != 0.0 ==> dd > 0.0)
  {
    if d > 0.0 {
      PositiveProduct(d, d, dd);
    } else if d < 0.0 {
      NegatedSquare(d, -d);
      PositiveProduct(-d, -d, dd);
    }
  }

  lemma {:induction false} NoSquares(data: seq<BinData>, mean: real, i: nat)
    requires SumSquares(data, mean) == 0.0 && i < |data|
    ensures data[i].freq as real == mean
  {
    var n := |data| - 1;
    SumDevBound(data[..n], mean);
    var d := Deviation(data[n], mean);
    NonZeroSquare(d, d * d);
    if i < n {
      NoSquares(data[..n], mean, i);
    }
  }
}
