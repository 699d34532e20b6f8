/** `CompileFreqResult` (worker/common.go): one worker's frequency list, completed with the values that
    only the norms know, sorted and cut. */
module Compile {
  import opened Permutations
  import opened FreqRows
  import opened Wrappers

  /** The first `n` words have a norm, or there are no norms at all (not a text-type query). */
  predicate Known(words: seq<Word>, n: nat, norms: map<Word, int>)
    requires n <= |words|
  {
    norms == map[] || forall j | 0 <= j < n :: words[j] in norms
  }

  /** The rows of the first `n` words, those with a non-positive norm left out. */
  function Counted(words: seq<Word>, freqs: seq<int>, n: nat, corpSize: int, norms: map<Word, int>): seq<Row>
    requires n <= |words| == |freqs| && Known(words, n, norms)
  {
    if n == 0 then []
    else
      var norm := if norms == map[] then corpSize else norms[words[n - 1]];
      var head := Counted(words, freqs, n - 1, corpSize, norms);
      if norm > 0 then head + [Row(words[n - 1], freqs[n - 1], norm, IpmOf(freqs[n - 1], norm))] else head
  }

  predicate IsZeroRow(norms: map<Word, int>, r: Row) {
    r.word in norms && r == Row(r.word, 0, norms[r.word], Finite(0.0))
  }

  /** Zero rows for exactly the norms that no counted row names, in any order. */
  predicate Absent(counted: seq<Row>, norms: map<Word, int>, zeros: seq<Row>) {
    && DistinctWords(zeros)
    && (forall i | 0 <= i < |zeros| :: IsZeroRow(norms, zeros[i]) && !Has(counted, zeros[i].word))
    && (forall w | w in norms :: Has(counted, w) || Has(zeros, w))
  }

  /** `ans` is the beginning of `full` arranged by descending frequency. */
  ghost predicate ArrangedAndCut(full: seq<Row>, sorted: seq<Row>, maxItems: nat, ans: seq<Row>) {
    SortedDesc(sorted) && multiset(sorted) == multiset(full) && ans == Cut(sorted, maxItems)
  }

  ghost predicate Compiled(
    words: seq<Word>, freqs: seq<int>, corpSize: int, maxItems: nat, norms: map<Word, int>, ans: seq<Row>)
  {
    && |words| == |freqs| && Known(words, |words|, norms)
    && var counted := Counted(words, freqs, |words|, corpSize, norms);
       exists zeros, sorted ::
         Absent(counted, norms, zeros) && ArrangedAndCut(counted + zeros, sorted, maxItems, ans)
  }

  /** The error return: the rows up to the first word without a norm, unsorted and uncut. */
  ghost predicate StoppedAt(
    words: seq<Word>, freqs: seq<int>, i: nat, corpSize: int, norms: map<Word, int>, ans: seq<Row>)
  {
    && i < |words| == |freqs| && Known(words, i, norms) && norms != map[] && words[i] !in norms
    && ans == Counted(words, freqs, i, corpSize, norms)
  }

  /** An unstable sort: nothing is promised about equal frequencies. */
  method SortSlice(rows: seq<Row>) returns (out: seq<Row>)
    ensures SortedDesc(out) && multiset(out) == multiset(rows)
  {
    out := SortStable(rows);
    SortSorts(rows);
  }

  method CompileFreqResult(
    words: seq<Word>, freqs: seq<int>, corpSize: int, maxItems: nat, norms: map<Word, int>)
    returns (ans: seq<Row>, missing: Option<Word>)
    requires |words| == |freqs|
    ensures missing == None ==> Compiled(words, freqs, corpSize, maxItems, norms, ans)
    ensures missing != None ==>
              exists i: nat :: StoppedAt(words, freqs, i, corpSize, norms, ans) && missing == Some(words[i])
  {
    ans, missing := [], None;
    var present: set<Word> := {};
    for i := 0 to |words|
      invariant Known(words, i, norms) && ans == Counted(words, freqs, i, corpSize, norms)
      invariant forall w :: w in present <==> Has(ans, w)
    {
      var norm := corpSize;
      if norms != map[] {
        if words[i] !in norms {
          assert StoppedAt(words, freqs, i, corpSize, norms, ans);
          return ans, Some(words[i]);
        }
        norm := norms[words[i]];
      }
      if norm > 0 {
        var row := Row(words[i], freqs[i], norm, IpmOf(freqs[i], norm));
        HasSnoc(ans, row);
        ans := ans + [row];
        present := present + {words[i]};
      }
    }
    var counted := ans;
    var zeros := AbsentRows(norms, present, counted);
    var sorted := SortSlice(counted + zeros);
    ans := Cut(sorted, maxItems);
    assert ArrangedAndCut(counted + zeros, sorted, maxItems, ans);
  }

  /** The loop over the norms, in whatever order the map yields them. */
  method AbsentRows(norms: map<Word, int>, present: set<Word>, ghost counted: seq<Row>)
    returns (zeros: seq<Row>)
    requires forall w :: w in present <==> Has(counted, w)
    ensures Absent(counted, norms, zeros)
  {
    zeros := [];
    var left := norms.Keys;
    while left != {}
      invariant left <= norms.Keys && DistinctWords(zeros)
      invariant forall i | 0 <= i < |zeros| ::
                  IsZeroRow(norms, zeros[i]) && zeros[i].word !in left && zeros[i].word !in present
      invariant forall w | w in norms.Keys - left :: w in present || Has(zeros, w)
    {
      var name :| name in left;
      if name !in present {
        HasSnoc(zeros, Row(name, 0, norms[name], Finite(0.0)));
        zeros := zeros + [Row(name, 0, norms[name], Finite(0.0))];
      }
      left := left - {name};
    }
  }

  lemma HasSnoc(rows: seq<Row>, r: Row)
    ensures forall w :: Has(rows + [r], w) <==> Has(rows, w) || r.word == w
  {
    forall w ensures Has(rows + [r], w) <==> Has(rows, w) || r.word == w {
      HasConcat(rows, [r], w);
      assert [r][0] == r;
    }
  }

  lemma HasConcat(rows: seq<Row>, more: seq<Row>, w: Word)
    ensures Has(rows + more, w) <==> Has(rows, w) || Has(more, w)
  {
    if Has(rows, w) {
      var i :| 0 <= i < |rows| && rows[i].word == w;
      assert (rows + more)[i].word == w;
    }
    if Has(more, w) {
      var i :| 0 <= i < |more| && more[i].word == w;
      assert (rows + more)[|rows| + i].word == w;
    }
    if Has(rows + more, w) && !Has(rows, w) {
      var i :| 0 <= i < |rows + more| && (rows + more)[i].word == w;
      assert i >= |rows| && more[i - |rows|].word == w;
    }
  }

  // ----- the list before the cut has each norm exactly once -----

  predicate Distinct(words: seq<Word>) {
    forall i, j | 0 <= i < j < |words| :: words[i] != words[j]
  }

  /** The frequency a complete list gives to a value: what the engine counted, 0 if it counted nothing
      or if the value has no positive norm. */
  function Expected(words: seq<Word>, freqs: seq<int>, norms: map<Word, int>, w: Word): (f: int)
    requires |words| == |freqs| && w in norms
  {
    if norms[w] > 0 && w in words then freqs[IndexOf(words, w)] else 0
  }

  function IndexOf(words: seq<Word>, w: Word): (i: nat)
    requires w in words
    ensures i < |words| && words[i] == w
  {
    if words[|words| - 1] == w then |words| - 1 else IndexOf(words[..|words| - 1], w)
  }

  /** A row with the right base, frequency and IPM for its word. */
  predicate Exact(words: seq<Word>, freqs: seq<int>, norms: map<Word, int>, r: Row)
    requires |words| == |freqs|
  {
    && r.word in norms && r.base == norms[r.word] && r.freq == Expected(words, freqs, norms, r.word)
    && r.ipm == if r.base > 0 then IpmOf(r.freq, r.base) else Finite(0.0)
  }

  lemma {:induction false} CountedRows(
    words: seq<Word>, freqs: seq<int>, n: nat, corpSize: int, norms: map<Word, int>)
    requires n <= |words| == |freqs| && Distinct(words) && norms != map[] && Known(words, |words|, norms)
    ensures var rows := Counted(words, freqs, n, corpSize, norms);
            && DistinctWords(rows)
            && (forall i | 0 <= i < |rows| :: rows[i].word in words[..n] && Exact(words, freqs, norms, rows[i]))
  {
    if n > 0 {
      CountedRows(words, freqs, n - 1, corpSize, norms);
      var word := words[n - 1];
      assert words[..n] == words[..n - 1] + [word];
      assert word !in words[..n - 1];
      assert IndexOf(words, word) == n - 1;
    }
  }

  lemma {:induction false} CountedNames(
    words: seq<Word>, freqs: seq<int>, n: nat, corpSize: int, norms: map<Word, int>, w: Word)
    requires n <= |words| == |freqs| && norms != map[] && Known(words, |words|, norms)
    requires w in words[..n] && norms[w] > 0
    ensures Has(Counted(words, freqs, n, corpSize, norms), w)
  {
    var word := words[n - 1];
    assert words[..n] == words[..n - 1] + [word];
    if w in words[..n - 1] {
      CountedNames(words, freqs, n - 1, corpSize, norms, w);
    }
    if norms[word] > 0 {
      HasSnoc(
        Counted(words, freqs, n - 1, corpSize, norms),
        Row(word, freqs[n - 1], norms[word], IpmOf(freqs[n - 1], norms[word])));
    } else {
      assert w != word;
    }
  }

  /** The complete list names each norm exactly once, with its exact row. */
  predicate Complete(words: seq<Word>, freqs: seq<int>, norms: map<Word, int>, full: seq<Row>)
    requires |words| == |freqs|
  {
    && DistinctWords(full)
    && (forall w | w in norms :: Has(full, w))
    && (forall i | 0 <= i < |full| :: Exact(words, freqs, norms, full[i]))
  }

  lemma ZeroIsExact(words: seq<Word>, freqs: seq<int>, corpSize: int, norms: map<Word, int>, r: Row)
    requires |words| == |freqs| && norms != map[] && Known(words, |words|, norms)
    requires IsZeroRow(norms, r) && !Has(Counted(words, freqs, |words|, corpSize, norms), r.word)
    ensures Exact(words, freqs, norms, r)
  {
    if norms[r.word] > 0 && r.word in words {
      assert words[..|words|] == words;
      CountedNames(words, freqs, |words|, corpSize, norms, r.word);
    }
  }

  lemma FullIsComplete(words: seq<Word>, freqs: seq<int>, corpSize: int, norms: map<Word, int>, zeros: seq<Row>)
    requires |words| == |freqs| && Distinct(words) && norms != map[] && Known(words, |words|, norms)
    requires Absent(Counted(words, freqs, |words|, corpSize, norms), norms, zeros)
    ensures Complete(words, freqs, norms, Counted(words, freqs, |words|, corpSize, norms) + zeros)
  {
    var counted := Counted(words, freqs, |words|, corpSize, norms);
    CountedRows(words, freqs, |words|, corpSize, norms);
    forall w | w in norms ensures Has(counted + zeros, w) {
      HasConcat(counted, zeros, w);
    }
    forall i | 0 <= i < |zeros| ensures Exact(words, freqs, norms, zeros[i]) {
      ZeroIsExact(words, freqs, corpSize, norms, zeros[i]);
    }
    DistinctConcat(counted, zeros);
  }

  lemma DistinctConcat(rows: seq<Row>, more: seq<Row>)
    requires DistinctWords(rows) && DistinctWords(more)
    requires forall j | 0 <= j < |more| :: !Has(rows, more[j].word)
    ensures DistinctWords(rows + more)
  {
  }

  // ----- the cut -----

  lemma {:induction false} DistinctOnce(full: seq<Row>, x: Row)
    requires DistinctWords(full)
    ensures multiset(full)[x] <= 1
  {
    if full != [] {
      var n := |full| - 1;
      assert full == full[..n] + [full[n]];
      DistinctOnce(full[..n], x);
      if full[n] == x {
        assert x !in full[..n];
        assert x !in multiset(full[..n]);
      }
    }
  }

  /** Rows that carry distinct words keep doing so under any permutation. */
  lemma DistinctPermuted(full: seq<Row>, sorted: seq<Row>)
    requires multiset(full) == multiset(sorted) && DistinctWords(full)
    ensures DistinctWords(sorted)
  {
    forall i, j | 0 <= i < j < |sorted| ensures sorted[i].word != sorted[j].word {
      var x, y := sorted[i], sorted[j];
      if x == y {
        assert sorted == sorted[..i] + [x] + sorted[i + 1..j] + [x] + sorted[j + 1..];
        assert multiset(sorted)[x] >= 2;
        DistinctOnce(full, x);
      } else {
        SameMembers(full, sorted, x);
        SameMembers(full, sorted, y);
      }
    }
  }

  lemma CompletePermuted(
    words: seq<Word>, freqs: seq<int>, norms: map<Word, int>, full: seq<Row>, sorted: seq<Row>)
    requires |words| == |freqs| && Complete(words, freqs, norms, full) && multiset(full) == multiset(sorted)
    ensures Complete(words, freqs, norms, sorted)
  {
    DistinctPermuted(full, sorted);
    forall i | 0 <= i < |sorted| ensures Exact(words, freqs, norms, sorted[i]) {
      SameMembers(full, sorted, sorted[i]);
    }
    forall w | w in norms ensures Has(sorted, w) {
      var i :| 0 <= i < |full| && full[i].word == w;
      SameMembers(full, sorted, full[i]);
      var j :| 0 <= j < |sorted| && sorted[j] == full[i];
    }
  }

  /** The number of rows is the number of norms. */
  lemma {:induction false} RowPerKey(full: seq<Row>, keys: set<Word>)
    requires DistinctWords(full)
    requires forall i | 0 <= i < |full| :: full[i].word in keys
    requires forall w | w in keys :: Has(full, w)
    ensures |full| == |keys|
  {
    if full == [] {
      assert forall w :: !Has(full, w);
      assert keys == {};
    } else {
      var n := |full| - 1;
      forall w | w in keys - {full[n].word} ensures Has(full[..n], w) {
        var i :| 0 <= i < |full| && full[i].word == w;
        assert full[..n][i].word == w;
      }
      RowPerKey(full[..n], keys - {full[n].word});
    }
  }

  lemma ExactRowsAreWellFormed(words: seq<Word>, freqs: seq<int>, norms: map<Word, int>, rows: seq<Row>)
    requires |words| == |freqs| && forall i | 0 <= i < |rows| :: Exact(words, freqs, norms, rows[i])
    ensures IpmExact(rows) && BasesFrom(rows, norms)
  {
    forall i | 0 <= i < |rows| && rows[i].base > 0
      ensures rows[i].ipm.Finite?
      ensures rows[i].ipm.value * rows[i].base as real == 1000000.0 * rows[i].freq as real
    {
      assert Exact(words, freqs, norms, rows[i]);
      var b := rows[i].base as real;
      assert rows[i].freq as real / b * 1000000.0 * b == 1000000.0 * rows[i].freq as real;
    }
    forall i | 0 <= i < |rows| ensures rows[i].word in norms && rows[i].base == norms[rows[i].word] {
      assert Exact(words, freqs, norms, rows[i]);
    }
  }

  /** Some complete list stands behind every compiled one. */
  lemma CompiledFromComplete(
    words: seq<Word>, freqs: seq<int>, corpSize: int, maxItems: nat, norms: map<Word, int>, ans: seq<Row>)
    returns (sorted: seq<Row>)
    requires |words| == |freqs| && Distinct(words) && norms != map[]
    requires Compiled(words, freqs, corpSize, maxItems, norms, ans)
    ensures Complete(words, freqs, norms, sorted) && SortedDesc(sorted) && |sorted| == |norms|
    ensures ans == Cut(sorted, maxItems)
  {
    var counted := Counted(words, freqs, |words|, corpSize, norms);
    var zeros, arranged :|
      Absent(counted, norms, zeros) && ArrangedAndCut(counted + zeros, arranged, maxItems, ans);
    sorted := arranged;
    FullIsComplete(words, freqs, corpSize, norms, zeros);
    CompletePermuted(words, freqs, norms, counted + zeros, sorted);
    RowPerKey(sorted, norms.Keys);
    assert |norms.Keys| == |norms|;
  }

  /** Exact top-k: the result is sorted, as long as the limit and the norms allow, exact row by row, and
      no value that is left out has a higher frequency than one that is kept. */
  lemma CompileIsExactTopK(
    words: seq<Word>, freqs: seq<int>, corpSize: int, maxItems: nat, norms: map<Word, int>, ans: seq<Row>)
    requires |words| == |freqs| && Distinct(words) && norms != map[]
    requires Compiled(words, freqs, corpSize, maxItems, norms, ans)
    ensures SortedDesc(ans) && DistinctWords(ans)
    ensures |ans| == if maxItems < |norms| then maxItems else |norms|
    ensures forall i | 0 <= i < |ans| :: Exact(words, freqs, norms, ans[i])
    ensures |norms| <= maxItems ==> forall w | w in norms :: Has(ans, w)
    ensures forall w, i | w in norms && !Has(ans, w) && 0 <= i < |ans| ::
              ans[i].freq >= Expected(words, freqs, norms, w)
  {
    var sorted := CompiledFromComplete(words, freqs, corpSize, maxItems, norms, ans);
    forall w, i | w in norms && !Has(ans, w) && 0 <= i < |ans|
      ensures ans[i].freq >= Expected(words, freqs, norms, w)
    {
      DroppedIsNoMoreFrequent(words, freqs, norms, sorted, maxItems, w, i);
    }
  }

  lemma DroppedIsNoMoreFrequent(
    words: seq<Word>, freqs: seq<int>, norms: map<Word, int>, sorted: seq<Row>, maxItems: nat, w: Word, i: nat)
    requires |words| == |freqs| && Complete(words, freqs, norms, sorted) && SortedDesc(sorted)
    requires w in norms && !Has(Cut(sorted, maxItems), w) && i < |Cut(sorted, maxItems)|
    ensures Cut(sorted, maxItems)[i].freq >= Expected(words, freqs, norms, w)
  {
    var j :| 0 <= j < |sorted| && sorted[j].word == w;
    assert Exact(words, freqs, norms, sorted[j]);
    assert forall k | 0 <= k < |Cut(sorted, maxItems)| :: Cut(sorted, maxItems)[k] == sorted[k];
    assert i <= j;
  }

  /** A value without a positive norm gets the zero row, with IPM 0. */
  lemma ZeroNormRow(
    words: seq<Word>, freqs: seq<int>, corpSize: int, maxItems: nat, norms: map<Word, int>, ans: seq<Row>, i: nat)
    requires |words| == |freqs| && Distinct(words) && norms != map[]
    requires Compiled(words, freqs, corpSize, maxItems, norms, ans)
    requires i < |ans| && ans[i].word in norms && norms[ans[i].word] <= 0
    ensures ans[i] == Row(ans[i].word, 0, norms[ans[i].word], Finite(0.0))
  {
    CompileIsExactTopK(words, freqs, corpSize, maxItems, norms, ans);
    assert Exact(words, freqs, norms, ans[i]);
  }

  // ----- without norms -----

  function PlainRow(words: seq<Word>, freqs: seq<int>, corpSize: int, k: nat): Row
    requires k < |words| == |freqs|
  {
    Row(words[k], freqs[k], corpSize, IpmOf(freqs[k], corpSize))
  }

  lemma {:induction false} CountedWithoutNorms(words: seq<Word>, freqs: seq<int>, n: nat, corpSize: int)
    requires n <= |words| == |freqs|
    ensures var rows := Counted(words, freqs, n, corpSize, map[]);
            if corpSize <= 0 then rows == []
            else |rows| == n && forall k | 0 <= k < n :: rows[k] == PlainRow(words, freqs, corpSize, k)
  {
    if n > 0 {
      CountedWithoutNorms(words, freqs, n - 1, corpSize);
    }
  }

  /** Without norms there are no zero rows. */
  lemma ArrangedWithoutNorms(words: seq<Word>, freqs: seq<int>, corpSize: int, maxItems: nat, ans: seq<Row>)
    returns (sorted: seq<Row>)
    requires |words| == |freqs| && Compiled(words, freqs, corpSize, maxItems, map[], ans)
    ensures var counted := Counted(words, freqs, |words|, corpSize, map[]);
            ArrangedAndCut(counted, sorted, maxItems, ans) && |sorted| == |counted|
  {
    var counted := Counted(words, freqs, |words|, corpSize, map[]);
    var zeros, arranged :|
      Absent(counted, map[], zeros) && ArrangedAndCut(counted + zeros, arranged, maxItems, ans);
    assert zeros == [] || IsZeroRow(map[], zeros[0]);
    assert counted + zeros == counted;
    assert |arranged| == |multiset(arranged)| == |multiset(counted)| == |counted|;
    sorted := arranged;
  }

  lemma KeptIsCounted(counted: seq<Row>, sorted: seq<Row>, maxItems: nat, i: nat) returns (k: nat)
    requires multiset(sorted) == multiset(counted) && i < |Cut(sorted, maxItems)|
    ensures k < |counted| && counted[k] == Cut(sorted, maxItems)[i]
  {
    SameMembers(sorted, counted, sorted[i]);
    k :| 0 <= k < |counted| && counted[k] == sorted[i];
  }

  lemma KeptIsNoLess(counted: seq<Row>, sorted: seq<Row>, maxItems: nat, k: nat, i: nat)
    requires SortedDesc(sorted) && multiset(sorted) == multiset(counted)
    requires k < |counted| && counted[k] !in Cut(sorted, maxItems) && i < |Cut(sorted, maxItems)|
    ensures Cut(sorted, maxItems)[i].freq >= counted[k].freq
  {
    SameMembers(counted, sorted, counted[k]);
    var j :| 0 <= j < |sorted| && sorted[j] == counted[k];
    if j <= i {
      StaysInCut(sorted, maxItems, j);
    }
  }

  lemma StaysInCut(sorted: seq<Row>, maxItems: nat, j: nat)
    requires j < |Cut(sorted, maxItems)|
    ensures sorted[j] in Cut(sorted, maxItems)
  {
    assert Cut(sorted, maxItems)[j] == sorted[j];
  }

  /** A query that is not about text types: every counted value has its row, based on the size of the
      corpus; the result is sorted, as long as the limit and the values allow, and no row that is left
      out has a higher frequency than one that is kept. */
  lemma TopKWithoutNorms(words: seq<Word>, freqs: seq<int>, corpSize: int, maxItems: nat, ans: seq<Row>)
    requires |words| == |freqs| && Compiled(words, freqs, corpSize, maxItems, map[], ans)
    ensures SortedDesc(ans) && IpmExact(ans)
    ensures |ans| == if corpSize <= 0 then 0 else if maxItems < |words| then maxItems else |words|
    ensures forall i | 0 <= i < |ans| ::
              exists k :: 0 <= k < |words| && ans[i] == PlainRow(words, freqs, corpSize, k)
    ensures forall k, i | 0 <= k < |words| && PlainRow(words, freqs, corpSize, k) !in ans && 0 <= i < |ans| ::
              ans[i].freq >= freqs[k]
  {
    var counted := Counted(words, freqs, |words|, corpSize, map[]);
    var sorted := ArrangedWithoutNorms(words, freqs, corpSize, maxItems, ans);
    CountedWithoutNorms(words, freqs, |words|, corpSize);
    forall i | 0 <= i < |ans|
      ensures exists k :: 0 <= k < |words| && ans[i] == PlainRow(words, freqs, corpSize, k)
    {
      var k := KeptIsCounted(counted, sorted, maxItems, i);
    }
    forall i | 0 <= i < |ans| ensures IsExact(ans[i]) {
      var k: nat :| k < |words| && ans[i] == PlainRow(words, freqs, corpSize, k);
      IpmOfIsExact(words[k], freqs[k], corpSize);
    }
    forall k, i | 0 <= k < |words| && PlainRow(words, freqs, corpSize, k) !in ans && 0 <= i < |ans|
      ensures ans[i].freq >= freqs[k]
    {
      KeptIsNoLess(counted, sorted, maxItems, k, i);
    }
  }
}
