/** `BinAsDataSeries` (rdb/results/results.go): sorts a list of dated frequencies, picks a bin size from
    its moving z-scores and sums consecutive items. */
module Binning {
  import opened Permutations
  import opened FreqRows
  import opened ZScores
  import opened Wrappers

  datatype Outcome = Series(items: seq<Row>) | Panicked

  // ----- the sorted series -----

  function DataOf(r: Row, bucket: int): BinData {
    BinData(bucket, r.freq, r.base, r.word.text)
  }

  predicate Parsed(items: seq<Row>, toInt: string -> Option<int>, data: seq<BinData>) {
    && |data| == |items|
    && forall i | 0 <= i < |items| ::
         toInt(items[i].word.text).Some? && data[i] == DataOf(items[i], toInt(items[i].word.text).value)
  }

  predicate SortedByDate(data: seq<BinData>) {
    forall i, j | 0 <= i < j < |data| :: data[i].dateBucket <= data[j].dateBucket
  }

  method InsertByDate(sorted: seq<BinData>, d: BinData) returns (out: seq<BinData>)
    requires SortedByDate(sorted)
    ensures SortedByDate(out) && multiset(out) == multiset(sorted) + multiset{d}
  {
    var j := 0;
    while j < |sorted| && sorted[j].dateBucket <= d.dateBucket
      invariant 0 <= j <= |sorted|
      invariant forall k | 0 <= k < j :: sorted[k].dateBucket <= d.dateBucket
    {
      j := j + 1;
    }
    out := sorted[..j] + [d] + sorted[j..];
    InsertedAt(sorted, d, j);
  }

  lemma InsertedAt(sorted: seq<BinData>, d: BinData, j: nat)
    requires SortedByDate(sorted) && j <= |sorted|
    requires forall k | 0 <= k < j :: sorted[k].dateBucket <= d.dateBucket
    requires j < |sorted| ==> d.dateBucket < sorted[j].dateBucket
    ensures SortedByDate(sorted[..j] + [d] + sorted[j..])
    ensures multiset(sorted[..j] + [d] + sorted[j..]) == multiset(sorted) + multiset{d}
  {
    Inserted(sorted, j, d);
    SortedConcat(sorted[..j], [d]);
    SortedConcat(sorted[..j] + [d], sorted[j..]);
  }

  lemma SortedConcat(a: seq<BinData>, b: seq<BinData>)
    requires SortedByDate(a) && SortedByDate(b)
    requires a != [] && b != [] ==> a[|a| - 1].dateBucket <= b[0].dateBucket
    ensures SortedByDate(a + b)
  {
    forall i, j | 0 <= i < j < |a + b| ensures (a + b)[i].dateBucket <= (a + b)[j].dateBucket {
      if i < |a| <= j {
        assert a[i].dateBucket <= a[|a| - 1].dateBucket;
        assert b[0].dateBucket <= b[j - |a|].dateBucket;
      }
    }
  }

  /** An unstable sort: only the order of the dates is promised. */
  method SortByDate(data: seq<BinData>) returns (out: seq<BinData>)
    ensures SortedByDate(out) && multiset(out) == multiset(data)
  {
    out := [];
    for i := 0 to |data|
      invariant SortedByDate(out) && multiset(out) == multiset(data[..i])
    {
      assert data[..i + 1] == data[..i] + [data[i]];
      out := InsertByDate(out, data[i]);
    }
    assert data[..|data|] == data;
  }

  // ----- the size of a bin -----

  function CeilDiv(n: nat, k: nat): nat
    requires k > 0
  {
    (n + k - 1) / k
  }

  /** n / m rounded to the nearest integer, halves to the even one. */
  function RoundToEven(n: nat, m: nat): nat
    requires m > 0
  {
    var q, r := n / m, n % m;
    if 2 * r < m || (2 * r == m && q % 2 == 0) then q else q + 1
  }

  /** max |score| < limit; false as soon as one score is NaN, which Go's max propagates. */
  predicate AllBelow(scores: seq<ZScore>, limit: real) {
    forall i | 0 <= i < |scores| :: Below(scores[i], limit)
  }

  /** The first item of each window, scored within its window. */
  function MovingScores(dates: seq<BinData>, windowSize: nat): (scores: seq<ZScore>)
    requires 1 < windowSize <= |dates|
    ensures |scores| == |dates| - windowSize + 1
    ensures forall i | 0 <= i < |scores| :: scores[i] == FirstScore(dates[i..i + windowSize])
  {
    seq(|dates| - windowSize + 1, i requires 0 <= i < |dates| - windowSize + 1 => FirstScore(dates[i..i + windowSize]))
  }

  /** How many items the heuristic wants to put in a bin; 1 leaves the series as it is. */
  function Divisor(dates: seq<BinData>, windowSize: nat): (k: nat)
    requires 1 < windowSize <= |dates|
    ensures k in {1, 3, 5, 10}
  {
    var scores := MovingScores(dates, windowSize);
    if |dates| <= 10 then 1
    else if AllBelow(scores, 2.5) then (if NumZero(dates) > |dates| / 10 then 10 else 5)
    else if AllBelow(scores, 3.5) then 3
    else 1
  }

  function ItemsPerBin(dates: seq<BinData>, windowSize: nat): nat
    requires 1 < windowSize <= |dates|
  {
    RoundToEven(|dates|, CeilDiv(|dates|, Divisor(dates, windowSize)))
  }

  // ----- the bins -----

  function SumBase(data: seq<BinData>): int {
    if data == [] then 0 else SumBase(data[..|data| - 1]) + data[|data| - 1].base
  }

  /** The first label that is not empty. */
  function Label(block: seq<BinData>): string {
    if block == [] then ""
    else
      var l := Label(block[..|block| - 1]);
      if l == "" then block[|block| - 1].word else l
  }

  function BinOf(block: seq<BinData>): Row {
    Row(Word(Label(block)), SumFreq(block), SumBase(block), IpmOf(SumFreq(block), SumBase(block)))
  }

  lemma BlockInside(n: nat, r: nat, k: nat)
    requires r > 0 && k * r <= n && k > 0
    ensures 0 <= (k - 1) * r < k * r && k * r - (k - 1) * r == r
  {
  }

  /** The bins of the first `k` full blocks of `r` items. */
  function FullBins(dates: seq<BinData>, r: nat, k: nat): seq<Row>
    requires r > 0 && k * r <= |dates|
  {
    if k == 0 then []
    else
      BlockInside(|dates|, r, k);
      FullBins(dates, r, k - 1) + [BinOf(dates[(k - 1) * r..k * r])]
  }

  /** The full blocks, and the rest unless its total is zero. */
  function BinsOf(dates: seq<BinData>, r: nat, k: nat): seq<Row>
    requires r > 0 && k * r <= |dates| < k * r + r
  {
    var rest := dates[k * r..];
    if SumFreq(rest) > 0 then FullBins(dates, r, k) + [BinOf(rest)] else FullBins(dates, r, k)
  }

  /** How many full blocks there are. */
  function NumFull(n: nat, r: nat): (k: nat)
    requires r > 0
    ensures k * r <= n < k * r + r
  {
    n / r
  }

  function Bins(dates: seq<BinData>, r: nat): seq<Row>
    requires r > 0
  {
    BinsOf(dates, r, NumFull(|dates|, r))
  }

  /** What a run of `BinAsDataSeries` returns for a series of at least 5 items with known dates. */
  ghost predicate Binned(items: seq<Row>, toInt: string -> Option<int>, windowSize: nat,
                         data: seq<BinData>, dates: seq<BinData>, out: seq<Row>)
  {
    && 1 < windowSize <= |items| == |dates| && Parsed(items, toInt, data)
    && SortedByDate(dates) && multiset(dates) == multiset(data)
    && ItemsPerBin(dates, windowSize) > 0
    && out == Bins(dates, ItemsPerBin(dates, windowSize))
  }

  // ----- the number and size of the bins -----

  lemma CeilSpec(n: nat, r: nat)
    requires r > 0
    ensures var c := CeilDiv(n, r); n <= c * r && (c > 0 ==> (c - 1) * r < n)
  {
    var c := CeilDiv(n, r);
    assert n + r - 1 == c * r + (n + r - 1) % r;
    assert c > 0 ==> (c - 1) * r == c * r - r;
  }

  lemma MulLess(a: int, b: int, r: int)
    requires r > 0 && a * r < b * r
    ensures a < b
  {
  }

  lemma CeilIs(n: nat, r: nat, low: nat, high: nat)
    requires r > 0 && n <= high * r && (low > 0 ==> (low - 1) * r < n)
    ensures low <= CeilDiv(n, r) <= high
  {
    var c := CeilDiv(n, r);
    CeilSpec(n, r);
    if c > 0 {
      MulLess(c - 1, high, r);
    }
    if low > 0 {
      MulLess(low - 1, c, r);
    }
  }

  /** Twice the error of the rounded quotient is at most the divisor. */
  predicate Near(twice: int, m: nat) {
    0 <= twice + m && twice <= m
  }

  lemma RoundSpec(n: nat, m: nat)
    requires m > 0
    ensures Near(2 * (n - m * RoundToEven(n, m)), m)
  {
    var q, r := n / m, n % m;
    assert n == m * q + r;
    assert m * (q + 1) == m * q + m;
  }

  /** The arithmetic of the three divisors: m bins are wanted, k m - d items are there, and k - j of
      them go into a bin. */
  lemma DivisorArithmetic(m: nat, d: nat, k: nat, j: nat)
    requires k in {3, 5, 10} && d < k && k * m - d > 10
    requires Near(2 * (m * j - d), m)
    ensures j <= k - 3 && m * j + j <= k + d
  {
    assert m >= 2;
    assert j * (2 * m) == 2 * (m * j);
    MulLess(j, 6, 2 * m);
    assert j == 0 || j == 1 || j == 2 || j == 3 || j == 4 || j == 5;
  }

  lemma NotAboveDivisor(n: nat, k: nat, m: nat, r: nat)
    requires m > 0 && n <= k * m && Near(2 * (n - m * r), m)
    ensures r <= k
  {
    assert r * (2 * m) == 2 * (m * r);
    assert (k + 1) * (2 * m) == 2 * (k * m) + 2 * m;
    MulLess(r, k + 1, 2 * m);
  }

  lemma BlocksOf(n: nat, k: nat, m: nat, d: nat, j: nat)
    requires k in {3, 5, 10} && n > 10 && d < k && n == k * m - d && j <= k && m > 0
    requires Near(2 * (m * j - d), m)
    ensures j <= k - 3 && n <= (m + 1) * (k - j) && (m - 1) * (k - j) < n
  {
    DivisorArithmetic(m, d, k, j);
    assert (m + 1) * (k - j) == k * m - m * j + k - j;
    assert (m - 1) * (k - j) == k * m - m * j - k + j;
    assert m * j >= j by { assert (m - 1) * j >= 0; }
  }

  /** With m = ceil(n/k) bins wanted for k in {3, 5, 10}, a bin takes at least 3 and at most k items, and
      filling it so makes m or m + 1 blocks. */
  lemma BinSize(n: nat, k: nat)
    requires n > 10 && k in {3, 5, 10}
    ensures var m := CeilDiv(n, k);
            && m > 0 && 3 <= RoundToEven(n, m) <= k
            && m <= CeilDiv(n, RoundToEven(n, m)) <= m + 1
  {
    CeilSpec(n, k);
    var m := CeilDiv(n, k);
    WantedBins(n, k, m);
    RoundSpec(n, m);
    var r := RoundToEven(n, m);
    BinSizeOf(n, k, m, r);
    CeilIs(n, r, m, m + 1);
  }

  lemma WantedBins(n: nat, k: nat, m: nat)
    requires n > 10 && k > 0 && n <= m * k
    ensures m > 0
  {
  }

  lemma BinSizeOf(n: nat, k: nat, m: nat, r: nat)
    requires k in {3, 5, 10} && n > 10 && m > 0 && n <= m * k && (m - 1) * k < n
    requires Near(2 * (n - m * r), m)
    ensures 3 <= r <= k && n <= (m + 1) * r && (m - 1) * r < n
  {
    assert (m - 1) * k == m * k - k && m * k == k * m;
    NotAboveDivisor(n, k, m, r);
    assert m * (k - r) == k * m - m * r;
    BlocksOf(n, k, m, k * m - n, k - r);
  }

  /** `r` is n / m rounded to the nearest integer, and to the even one of two. */
  predicate NearestEven(n: nat, m: nat, r: nat) {
    var rest: int := n - m * r;
    0 <= 2 * rest + m && 2 * rest <= m && (2 * rest == m || 2 * rest + m == 0 ==> r % 2 == 0)
  }

  lemma RoundsToEven(n: nat, m: nat)
    requires m > 0
    ensures NearestEven(n, m, RoundToEven(n, m))
  {
    var q, r := n / m, n % m;
    assert n == m * q + r;
    assert m * (q + 1) == m * q + m;
  }

  /** Bins of `r` items for a series of n when each bin is to take `k`: as many bins are wanted as it takes,
      and the items are spread over them. */
  predicate Spreads(n: nat, k: nat, m: nat, r: nat) {
    m > 0 && k * (m - 1) < n <= k * m && NearestEven(n, m, r)
  }

  lemma SpreadsOver(n: nat, k: nat)
    requires n > 0 && k > 0
    ensures CeilDiv(n, k) > 0 && Spreads(n, k, CeilDiv(n, k), RoundToEven(n, CeilDiv(n, k)))
  {
    CeilSpec(n, k);
    var m := CeilDiv(n, k);
    assert m > 0 by { SomeBins(n, k, m); }
    assert k * (m - 1) == (m - 1) * k && k * m == m * k;
    RoundsToEven(n, m);
  }

  lemma SomeBins(n: nat, k: nat, m: nat)
    requires n > 0 && n <= m * k
    ensures m > 0
  {
  }

  function Window(dates: seq<BinData>, windowSize: nat, i: nat): seq<BinData>
    requires i + windowSize <= |dates|
  {
    dates[i..i + windowSize]
  }

  /** Each window's first item scores below the limit. */
  predicate Calm(dates: seq<BinData>, windowSize: nat, limit: real)
    requires 1 < windowSize <= |dates|
  {
    forall i | 0 <= i <= |dates| - windowSize :: Below(FirstScore(Window(dates, windowSize, i)), limit)
  }

  lemma CalmIs(dates: seq<BinData>, windowSize: nat, limit: real)
    requires 1 < windowSize <= |dates|
    ensures Calm(dates, windowSize, limit) <==> AllBelow(MovingScores(dates, windowSize), limit)
  {
    var scores := MovingScores(dates, windowSize);
    assert forall i | 0 <= i < |scores| :: scores[i] == FirstScore(Window(dates, windowSize, i));
    if AllBelow(scores, limit) {
      forall i | 0 <= i <= |dates| - windowSize ensures Below(FirstScore(Window(dates, windowSize, i)), limit) {
        assert Below(scores[i], limit);
      }
    }
  }

  lemma CalmTwice(dates: seq<BinData>, windowSize: nat)
    requires 1 < windowSize <= |dates|
    ensures Calm(dates, windowSize, 2.5) ==> Calm(dates, windowSize, 3.5)
  {
    if Calm(dates, windowSize, 2.5) {
      forall i | 0 <= i <= |dates| - windowSize ensures Below(FirstScore(Window(dates, windowSize, i)), 3.5) {
        assert Below(FirstScore(Window(dates, windowSize, i)), 2.5);
        VarianceNotNegative(Window(dates, windowSize, i));
      }
    }
  }

  lemma DivisorCases(dates: seq<BinData>, windowSize: nat)
    requires 1 < windowSize <= |dates|
    ensures var n, zeros := |dates|, |set i | 0 <= i < |dates| && dates[i].freq == 0|;
            Divisor(dates, windowSize) ==
            if n <= 10 || !Calm(dates, windowSize, 3.5) then 1
            else if !Calm(dates, windowSize, 2.5) then 3
            else if 10 * zeros > n then 10
            else 5
  {
    CalmIs(dates, windowSize, 2.5);
    CalmIs(dates, windowSize, 3.5);
    CalmTwice(dates, windowSize);
    NumZeroIs(dates);
    MoreThanTenth(NumZero(dates), |dates|);
  }

  /** How the bin size depends on the series. Up to 10 items, and where a score reaches 3.5, nothing is
      grouped. Otherwise bins of 3 are wanted if a score reaches 2.5, bins of 10 if more than a tenth of
      the items have no hit, and bins of 5 if not; `m` bins are made for that. */
  lemma BinSizeCases(dates: seq<BinData>, windowSize: nat) returns (m: nat)
    requires 1 < windowSize <= |dates|
    ensures var n, r := |dates|, ItemsPerBin(dates, windowSize);
            var zeros := |set i | 0 <= i < n && dates[i].freq == 0|;
            if n <= 10 || !Calm(dates, windowSize, 3.5) then r == 1
            else if !Calm(dates, windowSize, 2.5) then Spreads(n, 3, m, r)
            else if 10 * zeros > n then Spreads(n, 10, m, r)
            else Spreads(n, 5, m, r)
  {
    DivisorCases(dates, windowSize);
    SpreadsOver(|dates|, Divisor(dates, windowSize));
    ItemsPerBinPositive(dates, windowSize);
    m := CeilDiv(|dates|, Divisor(dates, windowSize));
  }

  lemma MoreThanTenth(zeros: nat, n: nat)
    ensures zeros > n / 10 <==> 10 * zeros > n
  {
  }

  // ----- the loops -----

  /** d1^2 / v1 >= d2^2 / v2 makes every bound on the first score one on the second. */
  lemma LargerScore(d1: real, v1: real, d2: real, v2: real, limit: real)
    requires v1 > 0.0 && v2 > 0.0 && d1 * v2 >= d2 * v1 && d1 < limit * v1
    ensures d2 < limit * v2
  {
    assert d1 * v2 < limit * v1 * v2;
    assert v1 * (limit * v2 - d2) > 0.0;
    PositiveFactor(v1, limit * v2 - d2);
  }

  /** The loop that looks for the maximum of the absolute scores, by comparing squares. */
  method MaxAbs(scores: seq<ZScore>) returns (max: ZScore)
    requires forall i | 0 <= i < |scores| && scores[i].Score? :: scores[i].variance > 0.0
    ensures forall limit | limit > 0.0 :: Below(max, limit) <==> AllBelow(scores, limit)
  {
    max := Score(0.0, 1.0);
    forall limit: real | limit > 0.0 ensures Below(max, limit) { NonZeroSquare(limit, limit * limit); }
    for i := 0 to |scores|
      invariant max.Score? ==> max.variance > 0.0
      invariant forall limit | limit > 0.0 :: Below(max, limit) <==> AllBelow(scores[..i], limit)
    {
      var z := scores[i];
      ghost var before := max;
      if max.Score? && z.Score? {
        var x, y := max.deviation * max.deviation, z.deviation * z.deviation;
        if y * max.variance > x * z.variance {
          max := z;
        }
      } else {
        max := Undefined;
      }
      forall limit | limit > 0.0 ensures Below(max, limit) <==> Below(before, limit) && Below(z, limit) {
        MaxStep(before, z, max, limit);
      }
      assert scores[..i + 1] == scores[..i] + [z];
      assert forall limit :: AllBelow(scores[..i + 1], limit) <==> AllBelow(scores[..i], limit) && Below(z, limit);
    }
    assert scores[..|scores|] == scores;
  }

  lemma MaxStep(before: ZScore, z: ZScore, after: ZScore, limit: real)
    requires before.Score? ==> before.variance > 0.0
    requires z.Score? ==> z.variance > 0.0
    requires after ==
             if before.Undefined? || z.Undefined? then Undefined
             else if z.deviation * z.deviation * before.variance
                     > before.deviation * before.deviation * z.variance then z
             else before
    ensures Below(after, limit) <==> Below(before, limit) && Below(z, limit)
  {
    if before.Score? && z.Score? {
      var x, y := before.deviation * before.deviation, z.deviation * z.deviation;
      var l := limit * limit;
      if after == z && y < l * z.variance {
        LargerScore(y, z.variance, x, before.variance, l);
      }
      if after == before && x < l * before.variance {
        LargerScore(x, before.variance, y, z.variance, l);
      }
    }
  }

  lemma ItemsPerBinPositive(dates: seq<BinData>, windowSize: nat)
    requires 1 < windowSize <= |dates|
    ensures CeilDiv(|dates|, Divisor(dates, windowSize)) > 0 && ItemsPerBin(dates, windowSize) > 0
    ensures Divisor(dates, windowSize) == 1 ==> ItemsPerBin(dates, windowSize) == 1
  {
    var n, k := |dates|, Divisor(dates, windowSize);
    if k == 1 {
      assert CeilDiv(n, 1) == n;
      assert n / n == 1 && n % n == 0;
    } else {
      BinSize(n, k);
    }
  }

  /** Counting the items modulo the bin size tells where a block ends. */
  lemma BlockPosition(r: nat, k: nat, g: nat)
    requires g < r
    ensures (k * r + g) % r == g && (k * r + g) / r == k
  {
    assert (k * r + g) / r == k by { DivOf(r, k, g, (k * r + g) / r); }
  }

  lemma DivOf(r: nat, k: nat, g: nat, q: nat)
    requires g < r && q == (k * r + g) / r
    ensures q == k
  {
    var rem := (k * r + g) % r;
    assert k * r + g == q * r + rem;
    assert (k - q) * r == k * r - q * r;
    MulLess(k - q, 1, r);
    MulLess(q - k, 1, r) by { assert (q - k) * r == q * r - k * r; }
  }

  lemma EndOfBlock(i: nat, r: nat, k: nat, g: nat)
    requires g < r && k * r + g == i
    ensures (i + 1) % r == 0 <==> g + 1 == r
  {
    assert (k + 1) * r == k * r + r;
    if g + 1 < r {
      BlockPosition(r, k, g + 1);
    } else {
      BlockPosition(r, k + 1, 0);
    }
  }

  lemma FullIs(n: nat, r: nat, k: nat, g: nat)
    requires g < r && k * r + g == n
    ensures NumFull(n, r) == k
  {
    BlockPosition(r, k, g);
  }

  lemma FullBinsNext(dates: seq<BinData>, r: nat, k: nat, block: seq<BinData>, end: nat)
    requires r > 0 && end == k * r + r <= |dates| && block == dates[end - r..end]
    ensures (k + 1) * r == end && FullBins(dates, r, k + 1) == FullBins(dates, r, k) + [BinOf(block)]
  {
    assert (k + 1) * r == k * r + r;
  }

  lemma AllBlocks(dates: seq<BinData>, r: nat, k: nat, block: seq<BinData>)
    requires |block| < r && k * r + |block| == |dates| && block == dates[|dates| - |block|..]
    ensures Bins(dates, r) ==
            if SumFreq(block) > 0 then FullBins(dates, r, k) + [BinOf(block)] else FullBins(dates, r, k)
  {
    FullIs(|dates|, r, k, |block|);
  }

  /** Adding one item to the current bin. */
  lemma BlockGrows(block: seq<BinData>, item: BinData)
    ensures SumFreq(block + [item]) == SumFreq(block) + item.freq
    ensures SumBase(block + [item]) == SumBase(block) + item.base
    ensures Label(block + [item]) == if Label(block) == "" then item.word else Label(block)
  {
    assert (block + [item])[..|block|] == block;
  }

  /** After `i` items: `k` bins are complete, and `block` holds the items of the next one. */
  ghost predicate Filled(dates: seq<BinData>, r: nat, i: nat, k: nat, block: seq<BinData>, result: seq<Row>) {
    && i <= |dates| && |block| < r && k * r + |block| == i && block == dates[i - |block|..i]
    && result == FullBins(dates, r, k)
  }

  lemma FilledNext(dates: seq<BinData>, r: nat, i: nat, k: nat, block: seq<BinData>, result: seq<Row>)
    requires Filled(dates, r, i, k, block, result) && i < |dates|
    ensures var grown := block + [dates[i]];
            if (i + 1) % r == 0 then Filled(dates, r, i + 1, k + 1, [], result + [BinOf(grown)])
            else Filled(dates, r, i + 1, k, grown, result)
  {
    EndOfBlock(i, r, k, |block|);
    if (i + 1) % r == 0 {
      FullBinsNext(dates, r, k, block + [dates[i]], i + 1);
    }
  }

  /** The complete bins and the items of the next one, after `i` items. */
  ghost function Filling(dates: seq<BinData>, r: nat, i: nat): (seq<Row>, seq<BinData>)
    requires r > 0 && i <= |dates|
  {
    if i == 0 then ([], [])
    else
      var (result, block) := Filling(dates, r, i - 1);
      var grown := block + [dates[i - 1]];
      if i % r == 0 then (result + [BinOf(grown)], []) else (result, grown)
  }

  lemma {:induction false} FillingIsFilled(dates: seq<BinData>, r: nat, i: nat) returns (k: nat)
    requires r > 0 && i <= |dates|
    ensures var (result, block) := Filling(dates, r, i); Filled(dates, r, i, k, block, result)
  {
    if i == 0 {
      k := 0;
    } else {
      k := FillingIsFilled(dates, r, i - 1);
      var (result, block) := Filling(dates, r, i - 1);
      FilledNext(dates, r, i - 1, k, block, result);
      if i % r == 0 {
        k := k + 1;
      }
    }
  }

  lemma FillingIsBins(dates: seq<BinData>, r: nat)
    requires r > 0
    ensures var (result, block) := Filling(dates, r, |dates|);
            Bins(dates, r) == if SumFreq(block) > 0 then result + [BinOf(block)] else result
  {
    var k := FillingIsFilled(dates, r, |dates|);
    var (result, block) := Filling(dates, r, |dates|);
    AllBlocks(dates, r, k, block);
  }

  /** The accumulating loop. */
  method FillBins(dates: seq<BinData>, itemsPerBin: nat) returns (result: seq<Row>)
    requires itemsPerBin > 0
    ensures result == Bins(dates, itemsPerBin)
  {
    result := [];
    var currFreq, currBase, currLabel := 0, 0, "";
    ghost var block := [];
    for i := 0 to |dates|
      invariant (result, block) == Filling(dates, itemsPerBin, i)
      invariant currFreq == SumFreq(block) && currBase == SumBase(block) && currLabel == Label(block)
    {
      var item := dates[i];
      BlockGrows(block, item);
      block := block + [item];
      currFreq := currFreq + item.freq;
      currBase := currBase + item.base;
      if currLabel == "" {
        currLabel := item.word;
      }
      if (i + 1) % itemsPerBin == 0 {
        result := result + [Row(Word(currLabel), currFreq, currBase, IpmOf(currFreq, currBase))];
        currFreq, currBase, currLabel := 0, 0, "";
        block := [];
      }
    }
    FillingIsBins(dates, itemsPerBin);
    if currFreq > 0 {
      result := result + [Row(Word(currLabel), currFreq, currBase, IpmOf(currFreq, currBase))];
    }
  }

  method ChooseItemsPerBin(dates: seq<BinData>, windowSize: nat) returns (itemsPerBin: nat)
    requires 1 < windowSize <= |dates|
    ensures itemsPerBin == ItemsPerBin(dates, windowSize) > 0
  {
    var movingZScores := BdMovingZScores(dates, windowSize);
    assert movingZScores == MovingScores(dates, windowSize);
    forall i | 0 <= i < |movingZScores| && movingZScores[i].Score? ensures movingZScores[i].variance > 0.0 {
      VarianceNotNegative(dates[i..i + windowSize]);
    }
    var maxZScore := MaxAbs(movingZScores);
    var numBins := |dates|;
    var numZero := BdNumZeroFreq(dates);
    ItemsPerBinPositive(dates, windowSize);
    assert Below(maxZScore, 2.5) <==> AllBelow(movingZScores, 2.5);
    assert Below(maxZScore, 3.5) <==> AllBelow(movingZScores, 3.5);
    if numBins > 10 {
      if Below(maxZScore, 2.5) {
        if numZero > |dates| / 10 {
          numBins := CeilDiv(|dates|, 10);
        } else {
          numBins := CeilDiv(|dates|, 5);
        }
      } else if Below(maxZScore, 3.5) {
        numBins := CeilDiv(|dates|, 3);
      }
    }
    assert numBins == CeilDiv(|dates|, Divisor(dates, windowSize));
    itemsPerBin := RoundToEven(|dates|, numBins);
  }

  predicate AllParse(items: seq<Row>, toInt: string -> Option<int>) {
    forall i | 0 <= i < |items| :: toInt(items[i].word.text).Some?
  }

  method BinAsDataSeries(items: seq<Row>, toInt: string -> Option<int>, analysisWindowSize: int)
    returns (outcome: Outcome)
    ensures |items| < 5 ==> outcome == Series(items)
    ensures |items| >= 5 && analysisWindowSize <= 1 ==> outcome == Panicked
    ensures |items| >= 5 && analysisWindowSize > 1 && !AllParse(items, toInt) ==> outcome == Series(items)
    ensures |items| >= 5 && analysisWindowSize > 1 && AllParse(items, toInt) ==>
              if analysisWindowSize > |items| then outcome == Panicked
              else outcome.Series? && exists data, dates ::
                     Binned(items, toInt, analysisWindowSize, data, dates, outcome.items)
  {
    if |items| < 5 {
      return Series(items);
    }
    if analysisWindowSize <= 1 {
      return Panicked;
    }
    var data := [];
    for i := 0 to |items|
      invariant Parsed(items[..i], toInt, data)
    {
      var idx := toInt(items[i].word.text);
      if idx.None? {
        return Series(items);
      }
      data := data + [DataOf(items[i], idx.value)];
      assert items[..i + 1] == items[..i] + [items[i]];
    }
    assert items[..|items|] == items;
    if analysisWindowSize > |items| {
      return Panicked;
    }
    var dates := SortByDate(data);
    assert |dates| == |multiset(dates)| == |multiset(data)| == |items|;
    var itemsPerBin := ChooseItemsPerBin(dates, analysisWindowSize);
    var result := FillBins(dates, itemsPerBin);
    assert Binned(items, toInt, analysisWindowSize, data, dates, result);
    return Series(result);
  }

  // ----- when a series is grouped -----

  predicate HasConstantWindow(dates: seq<BinData>, windowSize: nat)
    requires windowSize <= |dates|
  {
    exists i :: 0 <= i <= |dates| - windowSize && ConstantAt(dates, i, windowSize)
  }

  predicate ConstantAt(dates: seq<BinData>, i: nat, windowSize: nat)
    requires i + windowSize <= |dates|
  {
    Constant(dates[i..i + windowSize])
  }

  /** A constant window has no score, fails every comparison and leaves the whole series unbinned. */
  lemma ConstantWindowUngroups(dates: seq<BinData>, windowSize: nat)
    requires 1 < windowSize <= |dates| && HasConstantWindow(dates, windowSize)
    ensures ItemsPerBin(dates, windowSize) == 1
  {
    var scores := MovingScores(dates, windowSize);
    var i :| 0 <= i <= |dates| - windowSize && ConstantAt(dates, i, windowSize);
    UndefinedIsConstant(dates[i..i + windowSize]);
    assert !Below(scores[i], 3.5) && !Below(scores[i], 2.5);
    assert Divisor(dates, windowSize) == 1;
    ItemsPerBinPositive(dates, windowSize);
  }

  /** With a window of at most 14 items, a series of more than 10 items is put into bins of 3 to 10
      items unless some window is constant, and is left alone if one is. */
  lemma GroupedUnlessConstant(dates: seq<BinData>, windowSize: nat)
    requires 1 < windowSize <= 14 && windowSize <= |dates| && |dates| > 10
    ensures HasConstantWindow(dates, windowSize) ==> ItemsPerBin(dates, windowSize) == 1
    ensures !HasConstantWindow(dates, windowSize) ==> 3 <= ItemsPerBin(dates, windowSize) <= 10
  {
    if HasConstantWindow(dates, windowSize) {
      ConstantWindowUngroups(dates, windowSize);
    } else {
      var scores := MovingScores(dates, windowSize);
      forall i | 0 <= i < |scores| ensures Below(scores[i], 3.5) {
        assert !ConstantAt(dates, i, windowSize);
        SmallWindowStaysBelow(dates[i..i + windowSize]);
        UndefinedIsConstant(dates[i..i + windowSize]);
      }
      assert AllBelow(scores, 3.5);
      BinSize(|dates|, Divisor(dates, windowSize));
    }
  }

  /** In a window of 15 items or more a lone hit is enough to leave the series unbinned. */
  lemma SpikeUngroups(dates: seq<BinData>, windowSize: nat, i: nat)
    requires 15 <= windowSize && i + windowSize <= |dates| && dates[i].freq == 1
    requires forall j | i < j < i + windowSize :: dates[j].freq == 0
    ensures ItemsPerBin(dates, windowSize) == 1
  {
    SpikeAttainsBound(Window(dates, windowSize, i));
    assert !Below(FirstScore(Window(dates, windowSize, i)), 3.5);
    var m := BinSizeCases(dates, windowSize);
  }

  /** The window that `filterByYearRange` (corpus/handlers/ttchunked.go) picks for `n` items. */
  function WindowFor(n: nat): nat {
    if n > 1000 then 100 else if n > 300 then 30 else if n > 100 then 20 else if n > 50 then 15 else 10
  }

  /** The outcome for a window that only a constant one can keep from grouping. */
  ghost predicate Grouped(items: seq<Row>, toInt: string -> Option<int>, windowSize: nat, out: seq<Row>) {
    exists data, dates ::
      && Binned(items, toInt, windowSize, data, dates, out)
      && if HasConstantWindow(dates, windowSize) then ItemsPerBin(dates, windowSize) == 1
         else 3 <= ItemsPerBin(dates, windowSize) <= 10 && 3 * (|out| - 1) < |items|
  }

  lemma BinnedIsGrouped(items: seq<Row>, toInt: string -> Option<int>, windowSize: nat,
                        data: seq<BinData>, dates: seq<BinData>, out: seq<Row>)
    requires Binned(items, toInt, windowSize, data, dates, out) && windowSize <= 14 && |items| > 10
    ensures Grouped(items, toInt, windowSize, out)
  {
    GroupedUnlessConstant(dates, windowSize);
    if !HasConstantWindow(dates, windowSize) {
      FewBins(dates, ItemsPerBin(dates, windowSize));
    }
  }

  ghost predicate BinnedWith(items: seq<Row>, toInt: string -> Option<int>, windowSize: nat, outcome: Outcome) {
    outcome.Series? && exists data, dates :: Binned(items, toInt, windowSize, data, dates, outcome.items)
  }

  /** The window picked by the caller makes the binning panic exactly for 5 to 9 items. From 11 to 50 items
      it always groups at least 3 of them, unless a window is constant. */
  method BinFiltered(items: seq<Row>, toInt: string -> Option<int>) returns (outcome: Outcome)
    requires AllParse(items, toInt)
    ensures outcome == Panicked <==> 5 <= |items| <= 9
    ensures |items| < 5 ==> outcome == Series(items)
    ensures 10 <= |items| <= 50 ==> BinnedWith(items, toInt, 10, outcome)
    ensures 51 <= |items| <= 100 ==> BinnedWith(items, toInt, 15, outcome)
    ensures 101 <= |items| <= 300 ==> BinnedWith(items, toInt, 20, outcome)
    ensures 301 <= |items| <= 1000 ==> BinnedWith(items, toInt, 30, outcome)
    ensures |items| > 1000 ==> BinnedWith(items, toInt, 100, outcome)
    ensures 11 <= |items| <= 50 ==> Grouped(items, toInt, 10, outcome.items)
  {
    outcome := BinAsDataSeries(items, toInt, WindowFor(|items|));
    if 11 <= |items| <= 50 {
      ghost var data, dates :| Binned(items, toInt, 10, data, dates, outcome.items);
      BinnedIsGrouped(items, toInt, 10, data, dates, outcome.items);
    }
  }

  // ----- what the bins are -----

  function Block(dates: seq<BinData>, r: nat, i: nat): seq<BinData>
    requires r > 0 && i * r <= |dates|
  {
    dates[i * r..if i * r + r <= |dates| then i * r + r else |dates|]
  }

  lemma {:induction false} FullBinAt(dates: seq<BinData>, r: nat, k: nat, i: nat)
    requires r > 0 && k * r <= |dates| && i < k
    ensures |FullBins(dates, r, k)| == k && i * r + r <= |dates|
    ensures FullBins(dates, r, k)[i] == BinOf(Block(dates, r, i))
  {
    BlockInside(|dates|, r, k);
    if i < k - 1 {
      FullBinAt(dates, r, k - 1, i);
    } else if k > 1 {
      FullBinAt(dates, r, k - 1, 0);
    }
  }

  /** The output bins are the consecutive, non-empty blocks of `r` dates, the last one possibly shorter. */
  lemma BinsAreBlocks(dates: seq<BinData>, r: nat, i: nat)
    requires r > 0 && i < |Bins(dates, r)|
    ensures i * r < |dates| && Bins(dates, r)[i] == BinOf(Block(dates, r, i))
  {
    var k := NumFull(|dates|, r);
    if k > 0 {
      FullBinAt(dates, r, k, if i < k then i else 0);
    }
    if i >= k {
      assert dates[k * r..] == Block(dates, r, k);
    }
  }

  /** The IPM of a bin is the exact ratio of its frequency to its base; without a base it is infinite, or
      no number if there is no hit either. */
  lemma BinsAreExact(dates: seq<BinData>, r: nat)
    requires r > 0
    ensures IpmExact(Bins(dates, r))
    ensures forall i | 0 <= i < |Bins(dates, r)| && Bins(dates, r)[i].base == 0 ::
              Bins(dates, r)[i].ipm ==
              if Bins(dates, r)[i].freq == 0 then NotANumber else Infinite(Bins(dates, r)[i].freq > 0)
  {
    forall i | 0 <= i < |Bins(dates, r)| && Bins(dates, r)[i].base == 0
      ensures Bins(dates, r)[i].ipm ==
              if Bins(dates, r)[i].freq == 0 then NotANumber else Infinite(Bins(dates, r)[i].freq > 0)
    {
      BinsAreBlocks(dates, r, i);
    }
    forall i | 0 <= i < |Bins(dates, r)| ensures IsExact(Bins(dates, r)[i]) {
      BinsAreBlocks(dates, r, i);
      var block := Block(dates, r, i);
      IpmOfIsExact(Word(Label(block)), SumFreq(block), SumBase(block));
    }
  }

  /** There is a bin for each full block, and one for the rest if anything in it has a hit. */
  lemma BinsAndTail(dates: seq<BinData>, r: nat, q: nat)
    requires r > 0 && q * r <= |dates| < q * r + r && forall i | 0 <= i < |dates| :: dates[i].freq >= 0
    ensures |Bins(dates, r)| == q + if exists d :: d in dates[q * r..] && d.freq > 0 then 1 else 0
  {
    FullIs(|dates|, r, q, |dates| - q * r);
    PositiveSum(dates[q * r..]);
    if q > 0 {
      FullBinAt(dates, r, q, 0);
    }
  }

  lemma {:induction false} PositiveSum(data: seq<BinData>)
    requires forall i | 0 <= i < |data| :: data[i].freq >= 0
    ensures SumFreq(data) >= 0 && (SumFreq(data) > 0 <==> exists d :: d in data && d.freq > 0)
  {
    if data != [] {
      var n := |data| - 1;
      PositiveSum(data[..n]);
      assert data == data[..n] + [data[n]];
    }
  }

  lemma NumberOfBins(dates: seq<BinData>, r: nat)
    requires r > 0
    ensures CeilDiv(|dates|, r) - 1 <= |Bins(dates, r)| <= CeilDiv(|dates|, r)
  {
    var n, k := |dates|, NumFull(|dates|, r);
    assert (k + 1) * r == k * r + r;
    assert k > 0 ==> (k - 1) * r == k * r - r;
    if n == k * r {
      CeilIs(n, r, k, k);
    } else {
      CeilIs(n, r, k + 1, k + 1);
    }
    if k > 0 {
      FullBinAt(dates, r, k, 0);
    }
  }

  lemma FewBlocks(blocks: nat, c: nat, r: nat, n: nat)
    requires r >= 3 && n > 0 && blocks <= c && (c > 0 ==> (c - 1) * r < n)
    ensures 3 * (blocks - 1) < n
  {
    if c > 0 {
      assert (c - 1) * (r - 3) >= 0;
      assert (c - 1) * r == (c - 1) * (r - 3) + 3 * (c - 1);
    }
  }

  lemma FewBins(dates: seq<BinData>, r: nat)
    requires r >= 3 && dates != []
    ensures 3 * (|Bins(dates, r)| - 1) < |dates|
  {
    NumberOfBins(dates, r);
    CeilSpec(|dates|, r);
    FewBlocks(|Bins(dates, r)|, CeilDiv(|dates|, r), r, |dates|);
  }

  /** The bins are as many as the heuristic wanted, or one more, or one less when a block of zeros at
      the end is dropped. */
  lemma BinCount(dates: seq<BinData>, windowSize: nat)
    requires 1 < windowSize <= |dates|
    ensures var k, r := Divisor(dates, windowSize), ItemsPerBin(dates, windowSize);
            var m := CeilDiv(|dates|, k);
            1 <= r <= k && m - 1 <= |Bins(dates, r)| <= m + 1
  {
    var n, k := |dates|, Divisor(dates, windowSize);
    var r := ItemsPerBin(dates, windowSize);
    ItemsPerBinPositive(dates, windowSize);
    NumberOfBins(dates, r);
    if k > 1 {
      BinSize(n, k);
    }
  }

  // ----- conservation -----

  function RowFreq(r: Row): int { r.freq }

  function RowBase(r: Row): int { r.base }

  function DataFreq(d: BinData): int { d.freq }

  function DataBase(d: BinData): int { d.base }

  lemma {:induction false} SumsAre(data: seq<BinData>)
    ensures SumFreq(data) == SumBy(DataFreq, data) && SumBase(data) == SumBy(DataBase, data)
  {
    if data != [] {
      SumsAre(data[..|data| - 1]);
    }
  }

  lemma SumsConcat(data: seq<BinData>, more: seq<BinData>)
    ensures SumFreq(data + more) == SumFreq(data) + SumFreq(more)
    ensures SumBase(data + more) == SumBase(data) + SumBase(more)
  {
    SumsAre(data);
    SumsAre(more);
    SumsAre(data + more);
    SumByConcat(DataFreq, data, more);
    SumByConcat(DataBase, data, more);
  }

  lemma {:induction false} FullBinsSum(dates: seq<BinData>, r: nat, k: nat)
    requires r > 0 && k * r <= |dates|
    ensures SumBy(RowFreq, FullBins(dates, r, k)) == SumFreq(dates[..k * r])
    ensures SumBy(RowBase, FullBins(dates, r, k)) == SumBase(dates[..k * r])
  {
    if k > 0 {
      BlockInside(|dates|, r, k);
      FullBinsSum(dates, r, k - 1);
      var block := dates[(k - 1) * r..k * r];
      assert dates[..k * r] == dates[..(k - 1) * r] + block;
      SumsConcat(dates[..(k - 1) * r], block);
    }
  }

  /** What the output leaves out: nothing, or a rest of the series whose total is not positive. */
  function Dropped(dates: seq<BinData>, r: nat): seq<BinData>
    requires r > 0
  {
    var rest := dates[NumFull(|dates|, r) * r..];
    if SumFreq(rest) > 0 then [] else rest
  }

  lemma BinsSum(dates: seq<BinData>, r: nat, k: nat)
    requires r > 0 && k * r <= |dates| < k * r + r
    ensures var rest := dates[k * r..];
            var dropped := if SumFreq(rest) > 0 then [] else rest;
            && SumBy(RowFreq, BinsOf(dates, r, k)) == SumFreq(dates) - SumFreq(dropped)
            && SumBy(RowBase, BinsOf(dates, r, k)) == SumBase(dates) - SumBase(dropped)
  {
    FullBinsSum(dates, r, k);
    var rest := dates[k * r..];
    assert dates == dates[..k * r] + rest;
    SumsConcat(dates[..k * r], rest);
    var full := FullBins(dates, r, k);
    assert (full + [BinOf(rest)])[..|full|] == full;
  }

  lemma {:induction false} ParsedSums(items: seq<Row>, toInt: string -> Option<int>, data: seq<BinData>)
    requires Parsed(items, toInt, data)
    ensures SumBy(RowFreq, items) == SumFreq(data) && SumBy(RowBase, items) == SumBase(data)
  {
    if items != [] {
      var n := |items| - 1;
      ParsedSums(items[..n], toInt, data[..n]);
    }
  }

  lemma {:induction false} ZeroSum(data: seq<BinData>)
    requires forall i | 0 <= i < |data| :: data[i].freq >= 0
    ensures SumFreq(data) >= 0
    ensures SumFreq(data) == 0 ==> forall i | 0 <= i < |data| :: data[i].freq == 0
  {
    if data != [] {
      var n := |data| - 1;
      ZeroSum(data[..n]);
      assert forall i | 0 <= i < n :: data[..n][i] == data[i];
    }
  }

  lemma SortedSums(dates: seq<BinData>, data: seq<BinData>)
    requires multiset(dates) == multiset(data)
    ensures SumFreq(dates) == SumFreq(data) && SumBase(dates) == SumBase(data)
  {
    SumsAre(data);
    SumsAre(dates);
    SumByPermuted(DataFreq, dates, data);
    SumByPermuted(DataBase, dates, data);
  }

  lemma DroppedIsZero(items: seq<Row>, toInt: string -> Option<int>, data: seq<BinData>, dates: seq<BinData>, r: nat)
    requires Parsed(items, toInt, data) && multiset(dates) == multiset(data) && NonNegative(items) && r > 0
    ensures SumFreq(Dropped(dates, r)) == 0
    ensures forall i | 0 <= i < |Dropped(dates, r)| :: Dropped(dates, r)[i].freq == 0
  {
    forall i | 0 <= i < |dates| ensures dates[i].freq >= 0 {
      SameMembers(dates, data, dates[i]);
    }
    ZeroSum(Dropped(dates, r));
  }

  /** Whatever the bin size, the total frequency of the output is that of the input, and so is the total
      base except for the base of a dropped block at the end in which every frequency is zero. */
  lemma BinningConserves(
    items: seq<Row>, toInt: string -> Option<int>, data: seq<BinData>, dates: seq<BinData>, r: nat)
    requires Parsed(items, toInt, data) && multiset(dates) == multiset(data) && NonNegative(items) && r > 0
    ensures SumBy(RowFreq, Bins(dates, r)) == SumBy(RowFreq, items)
    ensures SumBy(RowBase, Bins(dates, r)) == SumBy(RowBase, items) - SumBase(Dropped(dates, r))
    ensures forall i | 0 <= i < |Dropped(dates, r)| :: Dropped(dates, r)[i].freq == 0
  {
    BinsSum(dates, r, NumFull(|dates|, r));
    ParsedSums(items, toInt, data);
    SortedSums(dates, data);
    DroppedIsZero(items, toInt, data, dates, r);
  }

  // ----- order -----

  lemma {:induction false} LabelIsFirst(block: seq<BinData>)
    requires block != [] && block[0].word != ""
    ensures Label(block) == block[0].word
  {
    if |block| > 1 {
      LabelIsFirst(block[..|block| - 1]);
    }
  }

  lemma LabelIsFirstDate(
    items: seq<Row>, toInt: string -> Option<int>, data: seq<BinData>, dates: seq<BinData>, r: nat, i: nat)
    requires Parsed(items, toInt, data) && multiset(dates) == multiset(data) && toInt("") == None
    requires r > 0 && i < |Bins(dates, r)|
    ensures i * r < |dates| && toInt(Bins(dates, r)[i].word.text) == Some(dates[i * r].dateBucket)
  {
    BinsAreBlocks(dates, r, i);
    BlockLabel(items, toInt, data, dates, Block(dates, r, i), i * r);
  }

  /** Each label is the earliest date of its block. */
  lemma LabelIsEarliest(
    items: seq<Row>, toInt: string -> Option<int>, data: seq<BinData>, dates: seq<BinData>, r: nat, i: nat)
    requires Parsed(items, toInt, data) && multiset(dates) == multiset(data) && toInt("") == None
    requires SortedByDate(dates) && r > 0 && i < |Bins(dates, r)|
    ensures toInt(Bins(dates, r)[i].word.text).Some? && i * r < |dates|
    ensures forall d | d in Block(dates, r, i) :: toInt(Bins(dates, r)[i].word.text).value <= d.dateBucket
  {
    LabelIsFirstDate(items, toInt, data, dates, r, i);
  }

  lemma InOrder(dates: seq<BinData>, i: nat, j: nat, r: nat)
    requires SortedByDate(dates) && i <= j && i * r < |dates| && j * r < |dates|
    ensures dates[i * r].dateBucket <= dates[j * r].dateBucket
  {
    assert i * r <= j * r;
  }

  /** Labels never go back in time. */
  lemma LabelsInOrder(
    items: seq<Row>, toInt: string -> Option<int>, data: seq<BinData>, dates: seq<BinData>, r: nat, i: nat, j: nat)
    requires Parsed(items, toInt, data) && multiset(dates) == multiset(data) && toInt("") == None
    requires SortedByDate(dates) && r > 0 && i <= j < |Bins(dates, r)|
    ensures var from, to := toInt(Bins(dates, r)[i].word.text), toInt(Bins(dates, r)[j].word.text);
            from.Some? && to.Some? && from.value <= to.value
  {
    LabelIsFirstDate(items, toInt, data, dates, r, i);
    LabelIsFirstDate(items, toInt, data, dates, r, j);
    InOrder(dates, i, j, r);
  }

  lemma BlockLabel(
    items: seq<Row>, toInt: string -> Option<int>, data: seq<BinData>, dates: seq<BinData>,
    block: seq<BinData>, at: nat)
    requires Parsed(items, toInt, data) && multiset(dates) == multiset(data) && toInt("") == None
    requires at < |dates| && block != [] && block[0] == dates[at]
    ensures toInt(Label(block)) == Some(dates[at].dateBucket)
  {
    SameMembers(dates, data, dates[at]);
    var x :| 0 <= x < |data| && data[x] == dates[at];
    assert toInt(items[x].word.text).Some?;
    LabelIsFirst(block);
  }
}
