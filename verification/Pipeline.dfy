/** Split, count per chunk, compile, merge in any order of arrival, sort and cut
    (corpus/edit/edit.go, worker/actions.go, worker/common.go, corpus/handlers/ttypes2.go), against
    counting the whole corpus once. The engine is a list of hits, each at one position. */
module Pipeline {
  import opened Permutations
  import opened FreqRows
  import opened Compile
  import opened SplitCorpus

  datatype Hit = Hit(pos: int, value: Word)

  predicate Inside(h: Hit, c: Chunk) {
    c.from <= h.pos < c.to
  }

  /** How many hits inside the chunk have the value. */
  function Count(hits: seq<Hit>, c: Chunk, w: Word): nat {
    if hits == [] then 0
    else
      var h := hits[|hits| - 1];
      Count(hits[..|hits| - 1], c, w) + if Inside(h, c) && h.value == w then 1 else 0
  }

  /** How many hits the chunk holds: the concordance size the engine reports for it. */
  function ConcSize(hits: seq<Hit>, c: Chunk): nat {
    if hits == [] then 0
    else ConcSize(hits[..|hits| - 1], c) + if Inside(hits[|hits| - 1], c) then 1 else 0
  }

  /** Values below the frequency limit are not listed; at most this many hits of one are lost. */
  function Unlisted(freqLimit: int): nat {
    if freqLimit > 1 then freqLimit - 1 else 0
  }

  /** The engine's frequency list for one chunk. */
  predicate Listed(hits: seq<Hit>, c: Chunk, freqLimit: int, words: seq<Word>, freqs: seq<int>) {
    && |words| == |freqs| && Distinct(words)
    && (forall i | 0 <= i < |words| ::
          freqs[i] == Count(hits, c, words[i]) && freqs[i] > Unlisted(freqLimit))
    && (forall h | h in hits && Count(hits, c, h.value) > Unlisted(freqLimit) :: h.value in words)
  }

  /** One worker's answer for one chunk. */
  ghost predicate ChunkAnswer(
    hits: seq<Hit>, c: Chunk, freqLimit: int, maxItems: nat, norms: map<Word, int>, ans: seq<Row>)
  {
    exists words, freqs ::
      && Listed(hits, c, freqLimit, words, freqs)
      && Compiled(words, freqs, c.to - c.from, maxItems, norms, ans)
  }

  predicate Corpus(hits: seq<Hit>, size: nat, norms: map<Word, int>) {
    forall h | h in hits :: 0 <= h.pos < size && h.value in norms
  }

  lemma {:induction false} CountedIsHit(hits: seq<Hit>, c: Chunk, w: Word)
    requires Count(hits, c, w) > 0
    ensures exists h :: h in hits && h.value == w
  {
    var h := hits[|hits| - 1];
    if h.value == w {
      assert h in hits;
    } else {
      CountedIsHit(hits[..|hits| - 1], c, w);
    }
  }

  /** What the engine lists: the values with a hit in the chunk that reach the frequency limit. */
  lemma ListedReachesLimit(
    hits: seq<Hit>, c: Chunk, freqLimit: int, words: seq<Word>, freqs: seq<int>, w: Word)
    requires Listed(hits, c, freqLimit, words, freqs)
    ensures w in words <==> Count(hits, c, w) >= 1 && Count(hits, c, w) >= freqLimit
  {
    if Count(hits, c, w) >= 1 && Count(hits, c, w) >= freqLimit {
      CountedIsHit(hits, c, w);
    }
  }

  function Values(hits: seq<Hit>): (values: seq<Word>)
    ensures |values| == |hits| && forall i | 0 <= i < |hits| :: values[i] == hits[i].value
  {
    seq(|hits|, i requires 0 <= i < |hits| => hits[i].value)
  }

  /** In the whole corpus every hit counts, and counts once. */
  lemma {:induction false} WholeCorpusCounts(hits: seq<Hit>, size: nat, w: Word)
    requires forall h | h in hits :: 0 <= h.pos < size
    ensures Count(hits, Chunk(0, size), w) == multiset(Values(hits))[w]
    ensures ConcSize(hits, Chunk(0, size)) == |hits|
  {
    if hits != [] {
      var n := |hits| - 1;
      assert hits[n] in hits && forall h | h in hits[..n] :: h in hits;
      WholeCorpusCounts(hits[..n], size, w);
      assert Values(hits) == Values(hits[..n]) + [hits[n].value];
    }
  }

  // ----- counts are additive over the tiling -----

  lemma {:induction false} CountSplits(hits: seq<Hit>, from: nat, mid: nat, to: nat, w: Word)
    requires from <= mid <= to
    ensures Count(hits, Chunk(from, mid), w) + Count(hits, Chunk(mid, to), w) == Count(hits, Chunk(from, to), w)
    ensures ConcSize(hits, Chunk(from, mid)) + ConcSize(hits, Chunk(mid, to)) == ConcSize(hits, Chunk(from, to))
  {
    if hits != [] {
      CountSplits(hits[..|hits| - 1], from, mid, to, w);
    }
  }

  lemma {:induction false} CountNowhere(hits: seq<Hit>, p: nat, w: Word)
    ensures Count(hits, Chunk(p, p), w) == 0 && ConcSize(hits, Chunk(p, p)) == 0
  {
    if hits != [] {
      CountNowhere(hits[..|hits| - 1], p, w);
    }
  }

  function CountInFirst(hits: seq<Hit>, size: nat, chunkSize: nat, k: nat, w: Word): nat
    requires chunkSize > 0 && k <= NumChunks(size, chunkSize)
  {
    if k == 0 then 0
    else CountInFirst(hits, size, chunkSize, k - 1, w) + Count(hits, ChunkAt(size, chunkSize, k - 1), w)
  }

  function ConcSizeOfFirst(hits: seq<Hit>, size: nat, chunkSize: nat, k: nat): nat
    requires chunkSize > 0 && k <= NumChunks(size, chunkSize)
  {
    if k == 0 then 0
    else ConcSizeOfFirst(hits, size, chunkSize, k - 1) + ConcSize(hits, ChunkAt(size, chunkSize, k - 1))
  }

  /** Where the first `k` chunks end. */
  function EndOf(size: nat, chunkSize: nat, k: nat): nat
    requires chunkSize > 0 && k <= NumChunks(size, chunkSize)
  {
    if k == 0 then 0 else ChunkAt(size, chunkSize, k - 1).to
  }

  lemma {:induction false} FirstChunksCount(hits: seq<Hit>, size: nat, chunkSize: nat, k: nat, w: Word)
    requires chunkSize > 0 && k <= NumChunks(size, chunkSize)
    ensures CountInFirst(hits, size, chunkSize, k, w) == Count(hits, Chunk(0, EndOf(size, chunkSize, k)), w)
    ensures ConcSizeOfFirst(hits, size, chunkSize, k) == ConcSize(hits, Chunk(0, EndOf(size, chunkSize, k)))
  {
    if k == 0 {
      CountNowhere(hits, 0, w);
    } else {
      FirstChunksCount(hits, size, chunkSize, k - 1, w);
      ChunksTile(size, chunkSize, k - 1);
      if k > 1 {
        ChunksTile(size, chunkSize, k - 2);
      }
      var c := ChunkAt(size, chunkSize, k - 1);
      CountSplits(hits, 0, c.from, c.to, w);
    }
  }

  /** Nothing is counted twice and nothing is missed, whatever the chunk size. */
  lemma ChunksCountAll(hits: seq<Hit>, size: nat, chunkSize: nat, w: Word)
    requires chunkSize > 0
    ensures CountInFirst(hits, size, chunkSize, NumChunks(size, chunkSize), w) == Count(hits, Chunk(0, size), w)
    ensures ConcSizeOfFirst(hits, size, chunkSize, NumChunks(size, chunkSize)) == ConcSize(hits, Chunk(0, size))
  {
    var n := NumChunks(size, chunkSize);
    FirstChunksCount(hits, size, chunkSize, n, w);
    if n > 0 {
      ChunksTile(size, chunkSize, n - 1);
    }
  }

  // ----- what one chunk can lose -----

  /** The last kept frequency if the list was cut, and no less than what the frequency limit hides. */
  function Loss(ans: seq<Row>, freqLimit: int, norms: map<Word, int>): (loss: int)
    ensures loss >= 0 && (freqLimit > 1 ==> loss >= freqLimit - 1)
    ensures 0 < |ans| < |norms| ==> loss >= ans[|ans| - 1].freq
    ensures || loss == 0 || loss == freqLimit - 1
            || (0 < |ans| < |norms| && loss == ans[|ans| - 1].freq)
  {
    var t := if 0 < |ans| < |norms| then ans[|ans| - 1].freq else 0;
    if t < Unlisted(freqLimit) then Unlisted(freqLimit) else t
  }

  /** Every answer is a well-formed list of at most `maxItems` exact rows. */
  lemma ChunkWellFormed(
    hits: seq<Hit>, c: Chunk, freqLimit: int, maxItems: nat, norms: map<Word, int>, ans: seq<Row>)
    requires norms != map[] && ChunkAnswer(hits, c, freqLimit, maxItems, norms, ans)
    ensures DistinctWords(ans) && IpmExact(ans) && BasesFrom(ans, norms) && SortedDesc(ans)
    ensures |ans| == if maxItems < |norms| then maxItems else |norms|
    ensures |norms| <= maxItems ==> forall w | w in norms :: Has(ans, w)
  {
    var words, freqs :|
      && Listed(hits, c, freqLimit, words, freqs)
      && Compiled(words, freqs, c.to - c.from, maxItems, norms, ans);
    CompileIsExactTopK(words, freqs, c.to - c.from, maxItems, norms, ans);
    ExactRowsAreWellFormed(words, freqs, norms, ans);
  }

  /** What a list shows of a value that the chunk holds `n` times, if nothing is cut. */
  function Shown(n: nat, freqLimit: int): nat {
    if n > Unlisted(freqLimit) then n else 0
  }

  /** What the chunk's list says about `w`. */
  predicate ChunkBounded(
    hits: seq<Hit>, c: Chunk, freqLimit: int, norms: map<Word, int>, ans: seq<Row>, w: Word)
    requires w in norms
  {
    var total, count := Total(ans, w), Count(hits, c, w);
    && (norms[w] > 0 ==> count - Loss(ans, freqLimit, norms) <= total <= count)
    && (norms[w] <= 0 ==> total == 0)
    && total >= 0
  }

  /** The list says what is expected of `w`, or omits it and keeps only rows that are as frequent. */
  predicate SaysOrOmits(ans: seq<Row>, norms: map<Word, int>, w: Word, expected: int) {
    if Has(ans, w) then Total(ans, w) == expected
    else Total(ans, w) == 0 && |ans| < |norms| && forall i | 0 <= i < |ans| :: ans[i].freq >= expected
  }

  lemma CompiledSays(
    words: seq<Word>, freqs: seq<int>, corpSize: int, maxItems: nat, norms: map<Word, int>, ans: seq<Row>, w: Word)
    requires |words| == |freqs| && Distinct(words) && w in norms
    requires Compiled(words, freqs, corpSize, maxItems, norms, ans)
    ensures SaysOrOmits(ans, norms, w, Expected(words, freqs, norms, w))
    ensures |ans| == if maxItems < |norms| then maxItems else |norms|
  {
    CompileIsExactTopK(words, freqs, corpSize, maxItems, norms, ans);
    TotalIsExpected(words, freqs, norms, ans, w);
  }

  /** The frequency behind the answer of a chunk. */
  lemma ChunkSays(
    hits: seq<Hit>, c: Chunk, freqLimit: int, maxItems: nat, norms: map<Word, int>, ans: seq<Row>, w: Word)
    returns (expected: nat)
    requires w in norms && (forall h | h in hits :: h.value in norms)
    requires ChunkAnswer(hits, c, freqLimit, maxItems, norms, ans)
    ensures expected == if norms[w] > 0 then Shown(Count(hits, c, w), freqLimit) else 0
    ensures SaysOrOmits(ans, norms, w, expected)
    ensures |ans| == if maxItems < |norms| then maxItems else |norms|
  {
    var words, freqs :|
      && Listed(hits, c, freqLimit, words, freqs)
      && Compiled(words, freqs, c.to - c.from, maxItems, norms, ans);
    CompiledSays(words, freqs, c.to - c.from, maxItems, norms, ans, w);
    ExpectedIsCount(hits, c, freqLimit, words, freqs, norms, w);
    expected := Expected(words, freqs, norms, w);
  }

  lemma ChunkBound(
    hits: seq<Hit>, c: Chunk, freqLimit: int, maxItems: nat, norms: map<Word, int>, ans: seq<Row>, w: Word)
    requires maxItems > 0 && w in norms && (forall h | h in hits :: h.value in norms)
    requires ChunkAnswer(hits, c, freqLimit, maxItems, norms, ans)
    ensures ChunkBounded(hits, c, freqLimit, norms, ans, w)
  {
    var expected := ChunkSays(hits, c, freqLimit, maxItems, norms, ans, w);
    if !Has(ans, w) {
      assert ans[|ans| - 1].freq >= expected;
    }
  }

  /** Without a cut, the list shows exactly what the frequency limit lets through. */
  lemma ChunkExact(
    hits: seq<Hit>, c: Chunk, freqLimit: int, maxItems: nat, norms: map<Word, int>, ans: seq<Row>, w: Word)
    requires |norms| <= maxItems && w in norms && (forall h | h in hits :: h.value in norms)
    requires ChunkAnswer(hits, c, freqLimit, maxItems, norms, ans)
    ensures Total(ans, w) == if norms[w] > 0 then Shown(Count(hits, c, w), freqLimit) else 0
  {
    var expected := ChunkSays(hits, c, freqLimit, maxItems, norms, ans, w);
  }

  lemma TotalIsExpected(words: seq<Word>, freqs: seq<int>, norms: map<Word, int>, ans: seq<Row>, w: Word)
    requires |words| == |freqs| && DistinctWords(ans) && w in norms
    requires forall i | 0 <= i < |ans| :: Exact(words, freqs, norms, ans[i])
    ensures Total(ans, w) == if Has(ans, w) then Expected(words, freqs, norms, w) else 0
  {
    if Has(ans, w) {
      var i :| 0 <= i < |ans| && ans[i].word == w;
      TotalIsFreq(ans, i);
      assert Exact(words, freqs, norms, ans[i]);
    } else {
      TotalOfAbsent(ans, w);
    }
  }

  lemma ExpectedIsCount(
    hits: seq<Hit>, c: Chunk, freqLimit: int, words: seq<Word>, freqs: seq<int>, norms: map<Word, int>, w: Word)
    requires Listed(hits, c, freqLimit, words, freqs) && w in norms
    ensures var e, n := Expected(words, freqs, norms, w), Count(hits, c, w);
            e == if norms[w] > 0 then Shown(n, freqLimit) else 0
  {
    if w !in words && Count(hits, c, w) > Unlisted(freqLimit) {
      CountedIsHit(hits, c, w);
    }
  }

  // ----- what all chunks can lose -----

  /** The answers of all chunks, in chunk order. */
  ghost predicate Answers(
    hits: seq<Hit>, size: nat, chunkSize: nat, freqLimit: int, maxItems: nat, norms: map<Word, int>,
    lists: seq<seq<Row>>)
  {
    && chunkSize > 0 && |lists| == NumChunks(size, chunkSize)
    && forall i | 0 <= i < |lists| ::
         ChunkAnswer(hits, ChunkAt(size, chunkSize, i), freqLimit, maxItems, norms, lists[i])
  }

  function LossOfAll(lists: seq<seq<Row>>, freqLimit: int, norms: map<Word, int>): int {
    if lists == [] then 0
    else LossOfAll(lists[..|lists| - 1], freqLimit, norms) + Loss(lists[|lists| - 1], freqLimit, norms)
  }

  lemma FirstListsNext(lists: seq<seq<Row>>, k: nat, freqLimit: int, norms: map<Word, int>, w: Word)
    requires 0 < k <= |lists|
    ensures TotalOfAll(lists[..k], w) == TotalOfAll(lists[..k - 1], w) + Total(lists[k - 1], w)
    ensures LossOfAll(lists[..k], freqLimit, norms) ==
            LossOfAll(lists[..k - 1], freqLimit, norms) + Loss(lists[k - 1], freqLimit, norms)
  {
    assert lists[..k][..k - 1] == lists[..k - 1];
  }

  lemma {:induction false} FirstListsBound(
    hits: seq<Hit>, size: nat, chunkSize: nat, freqLimit: int, norms: map<Word, int>,
    lists: seq<seq<Row>>, k: nat, w: Word)
    requires chunkSize > 0 && w in norms && k <= |lists| == NumChunks(size, chunkSize)
    requires forall i | 0 <= i < k ::
               ChunkBounded(hits, ChunkAt(size, chunkSize, i), freqLimit, norms, lists[i], w)
    ensures norms[w] > 0 ==>
              && TotalOfAll(lists[..k], w) <= CountInFirst(hits, size, chunkSize, k, w)
              && TotalOfAll(lists[..k], w) >=
                 CountInFirst(hits, size, chunkSize, k, w) - LossOfAll(lists[..k], freqLimit, norms)
    ensures norms[w] <= 0 ==> TotalOfAll(lists[..k], w) == 0
    ensures TotalOfAll(lists[..k], w) >= 0
  {
    if k > 0 {
      FirstListsBound(hits, size, chunkSize, freqLimit, norms, lists, k - 1, w);
      FirstListsNext(lists, k, freqLimit, norms, w);
      assert ChunkBounded(hits, ChunkAt(size, chunkSize, k - 1), freqLimit, norms, lists[k - 1], w);
    }
  }

  /** For every chunk size, cut, frequency limit and arrival order: the merged frequency of a value
      never exceeds its true count, and misses at most the sum of what each chunk's cut may hide. */
  lemma TopKErrorBound(
    hits: seq<Hit>, size: nat, chunkSize: nat, freqLimit: int, maxItems: nat, norms: map<Word, int>,
    lists: seq<seq<Row>>, arrived: seq<seq<Row>>, w: Word)
    requires Corpus(hits, size, norms) && maxItems > 0 && w in norms
    requires Answers(hits, size, chunkSize, freqLimit, maxItems, norms, lists)
    requires multiset(arrived) == multiset(lists)
    ensures var truth, merged := Count(hits, Chunk(0, size), w), Total(MergeAll(arrived), w);
            && (norms[w] > 0 ==> truth - LossOfAll(lists, freqLimit, norms) <= merged <= truth)
            && (norms[w] <= 0 ==> merged == 0)
            && merged >= 0
            && (norms[w] > 0 && truth > LossOfAll(lists, freqLimit, norms) ==> Has(MergeAll(arrived), w))
  {
    assert lists[..|lists|] == lists;
    forall i | 0 <= i < |lists|
      ensures ChunkBounded(hits, ChunkAt(size, chunkSize, i), freqLimit, norms, lists[i], w)
    {
      ChunkBound(hits, ChunkAt(size, chunkSize, i), freqLimit, maxItems, norms, lists[i], w);
    }
    FirstListsBound(hits, size, chunkSize, freqLimit, norms, lists, |lists|, w);
    ChunksCountAll(hits, size, chunkSize, w);
    MergeAllAddsTotals(arrived, w);
    TotalOfAllPermuted(arrived, lists, w);
    if !Has(MergeAll(arrived), w) {
      TotalOfAbsent(MergeAll(arrived), w);
    }
  }

  /** The answers are well formed, and so is their merge. */
  lemma MergedWellFormed(
    hits: seq<Hit>, size: nat, chunkSize: nat, freqLimit: int, maxItems: nat, norms: map<Word, int>,
    lists: seq<seq<Row>>, arrived: seq<seq<Row>>)
    requires Corpus(hits, size, norms) && maxItems > 0 && norms != map[]
    requires Answers(hits, size, chunkSize, freqLimit, maxItems, norms, lists)
    requires multiset(arrived) == multiset(lists)
    ensures var merged := MergeAll(arrived);
            DistinctWords(merged) && IpmExact(merged) && BasesFrom(merged, norms)
    ensures |norms| <= maxItems && size > 0 ==> forall w | w in norms :: Has(MergeAll(arrived), w)
  {
    forall i | 0 <= i < |arrived| ensures IpmExact(arrived[i]) && BasesFrom(arrived[i], norms) {
      SameMembers(arrived, lists, arrived[i]);
      var j :| 0 <= j < |lists| && lists[j] == arrived[i];
      ChunkWellFormed(hits, ChunkAt(size, chunkSize, j), freqLimit, maxItems, norms, lists[j]);
    }
    MergeAllWellFormed(arrived, norms);
    if |norms| <= maxItems && size > 0 {
      forall w | w in norms ensures Has(MergeAll(arrived), w) {
        ChunkWellFormed(hits, ChunkAt(size, chunkSize, 0), freqLimit, maxItems, norms, lists[0]);
        SameMembers(arrived, lists, lists[0]);
        MergeAllWords(arrived, w);
      }
    }
  }

  /** A value that the sort and the cut lose is no more frequent than the last kept one. */
  lemma CutOff(rows: seq<Row>, cut: nat, w: Word)
    requires DistinctWords(rows)
    requires var final := Cut(SortStable(rows), cut); final != [] && !Has(final, w)
    ensures var final := Cut(SortStable(rows), cut); var last := final[|final| - 1];
            && last in rows && Total(rows, last.word) == last.freq
            && if Has(rows, w) then Total(rows, w) <= last.freq else Total(rows, w) == 0
  {
    var sorted := SortStable(rows);
    var final := Cut(sorted, cut);
    var last := final[|final| - 1];
    SortSorts(rows);
    SameMembers(rows, sorted, last);
    var l :| 0 <= l < |rows| && rows[l] == last;
    TotalIsFreq(rows, l);
    if Has(rows, w) {
      var i :| 0 <= i < |rows| && rows[i].word == w;
      SameMembers(rows, sorted, rows[i]);
      var j :| 0 <= j < |sorted| && sorted[j] == rows[i];
      TotalIsFreq(rows, i);
      assert forall k | 0 <= k < |final| :: final[k] == sorted[k] && final[k].word != w;
      assert j >= |final|;
    } else {
      TotalOfAbsent(rows, w);
    }
  }

  lemma MergedNonNegative(
    hits: seq<Hit>, size: nat, chunkSize: nat, freqLimit: int, maxItems: nat, norms: map<Word, int>,
    lists: seq<seq<Row>>, arrived: seq<seq<Row>>, r: Row)
    requires Corpus(hits, size, norms) && maxItems > 0
    requires Answers(hits, size, chunkSize, freqLimit, maxItems, norms, lists)
    requires multiset(arrived) == multiset(lists)
    requires BasesFrom(MergeAll(arrived), norms) && r in MergeAll(arrived)
    ensures Total(MergeAll(arrived), r.word) >= 0
  {
    TopKErrorBound(hits, size, chunkSize, freqLimit, maxItems, norms, lists, arrived, r.word);
  }

  /** A value that the final cut (or a chunk's cut) loses has a true count of at most the smallest
      kept merged frequency plus what the chunks may hide. */
  lemma LostInFinalCut(
    hits: seq<Hit>, size: nat, chunkSize: nat, freqLimit: int, maxItems: nat, norms: map<Word, int>,
    lists: seq<seq<Row>>, arrived: seq<seq<Row>>, cut: nat, w: Word)
    requires Corpus(hits, size, norms) && maxItems > 0 && w in norms && norms[w] > 0
    requires Answers(hits, size, chunkSize, freqLimit, maxItems, norms, lists)
    requires multiset(arrived) == multiset(lists)
    requires var final := Cut(SortStable(MergeAll(arrived)), cut); final != [] && !Has(final, w)
    ensures var final := Cut(SortStable(MergeAll(arrived)), cut);
            Count(hits, Chunk(0, size), w) <= final[|final| - 1].freq + LossOfAll(lists, freqLimit, norms)
  {
    var merged := MergeAll(arrived);
    var final := Cut(SortStable(merged), cut);
    MergedWellFormed(hits, size, chunkSize, freqLimit, maxItems, norms, lists, arrived);
    CutOff(merged, cut, w);
    MergedNonNegative(hits, size, chunkSize, freqLimit, maxItems, norms, lists, arrived, final[|final| - 1]);
    TopKErrorBound(hits, size, chunkSize, freqLimit, maxItems, norms, lists, arrived, w);
  }

  // ----- exactness -----

  /** A row without its IPM. */
  datatype Entry = Entry(word: Word, freq: int, base: int)

  function EntryOf(r: Row): Entry {
    Entry(r.word, r.freq, r.base)
  }

  function Entries(rows: seq<Row>): (es: seq<Entry>)
    ensures |es| == |rows| && forall i | 0 <= i < |rows| :: es[i] == EntryOf(rows[i])
  {
    seq(|rows|, i requires 0 <= i < |rows| => EntryOf(rows[i]))
  }

  lemma {:induction false} EntryOnce(rows: seq<Row>, e: Entry)
    requires DistinctWords(rows)
    ensures multiset(Entries(rows))[e] == if e in Entries(rows) then 1 else 0
  {
    if rows != [] {
      var n := |rows| - 1;
      EntryOnce(rows[..n], e);
      assert Entries(rows) == Entries(rows[..n]) + [EntryOf(rows[n])];
      if e in Entries(rows[..n]) {
        var i :| 0 <= i < n && Entries(rows[..n])[i] == e;
        assert rows[i].word != rows[n].word;
      }
    }
  }

  lemma SameEntries(rows: seq<Row>, other: seq<Row>)
    requires DistinctWords(rows) && DistinctWords(other)
    requires forall e :: e in Entries(rows) <==> e in Entries(other)
    ensures multiset(Entries(rows)) == multiset(Entries(other))
  {
    forall e ensures multiset(Entries(rows))[e] == multiset(Entries(other))[e] {
      EntryOnce(rows, e);
      EntryOnce(other, e);
    }
  }

  /** The entries of a list with distinct words that names each norm, with a known frequency each. */
  lemma EntriesAre(rows: seq<Row>, norms: map<Word, int>, freqOf: map<Word, int>, e: Entry)
    requires DistinctWords(rows) && BasesFrom(rows, norms) && (forall w | w in norms :: Has(rows, w))
    requires freqOf.Keys == norms.Keys && forall w | w in norms :: Total(rows, w) == freqOf[w]
    ensures e in Entries(rows) <==> e.word in norms && e == Entry(e.word, freqOf[e.word], norms[e.word])
  {
    if e in Entries(rows) {
      var i :| 0 <= i < |rows| && Entries(rows)[i] == e;
      TotalIsFreq(rows, i);
    }
    if e.word in norms && e == Entry(e.word, freqOf[e.word], norms[e.word]) {
      var i :| 0 <= i < |rows| && rows[i].word == e.word;
      TotalIsFreq(rows, i);
      assert Entries(rows)[i] == e;
    }
  }

  function Totals(rows: seq<Row>, norms: map<Word, int>): (totals: map<Word, int>)
    ensures totals.Keys == norms.Keys && forall w | w in norms :: totals[w] == Total(rows, w)
  {
    map w | w in norms :: Total(rows, w)
  }

  /** Two lists that name each norm once have the same entries exactly when their frequencies agree. */
  lemma EqualEntries(rows: seq<Row>, other: seq<Row>, norms: map<Word, int>)
    requires DistinctWords(rows) && BasesFrom(rows, norms) && (forall w | w in norms :: Has(rows, w))
    requires DistinctWords(other) && BasesFrom(other, norms) && (forall w | w in norms :: Has(other, w))
    ensures multiset(Entries(rows)) == multiset(Entries(other)) <==>
            forall w | w in norms :: Total(rows, w) == Total(other, w)
  {
    if multiset(Entries(rows)) == multiset(Entries(other)) {
      forall w | w in norms ensures Total(rows, w) == Total(other, w) {
        var e := Entry(w, Total(rows, w), norms[w]);
        EntriesAre(rows, norms, Totals(rows, norms), e);
        EntriesAre(other, norms, Totals(other, norms), e);
        SameMembers(Entries(rows), Entries(other), e);
      }
    }
    if forall w | w in norms :: Total(rows, w) == Total(other, w) {
      forall e ensures e in Entries(rows) <==> e in Entries(other) {
        EntriesAre(rows, norms, Totals(rows, norms), e);
        EntriesAre(other, norms, Totals(rows, norms), e);
      }
      SameEntries(rows, other);
    }
  }

  // ----- exactness of single values -----

  /** The hits of the value in the chunks whose lists show it. */
  function ShownInFirst(hits: seq<Hit>, size: nat, chunkSize: nat, freqLimit: int, k: nat, w: Word): nat
    requires chunkSize > 0 && k <= NumChunks(size, chunkSize)
  {
    if k == 0 then 0
    else
      ShownInFirst(hits, size, chunkSize, freqLimit, k - 1, w)
      + Shown(Count(hits, ChunkAt(size, chunkSize, k - 1), w), freqLimit)
  }

  lemma {:induction false} FirstListsExact(
    hits: seq<Hit>, size: nat, chunkSize: nat, freqLimit: int, norms: map<Word, int>,
    lists: seq<seq<Row>>, k: nat, w: Word)
    requires chunkSize > 0 && k <= |lists| == NumChunks(size, chunkSize)
    requires forall i | 0 <= i < k ::
               Total(lists[i], w) == Shown(Count(hits, ChunkAt(size, chunkSize, i), w), freqLimit)
    ensures TotalOfAll(lists[..k], w) == ShownInFirst(hits, size, chunkSize, freqLimit, k, w)
  {
    if k > 0 {
      FirstListsExact(hits, size, chunkSize, freqLimit, norms, lists, k - 1, w);
      FirstListsNext(lists, k, freqLimit, norms, w);
    }
  }

  /** None of the first `k` chunks holds the value below the frequency limit. */
  predicate NeverBelowLimit(hits: seq<Hit>, size: nat, chunkSize: nat, freqLimit: int, k: nat, w: Word)
    requires chunkSize > 0 && k <= NumChunks(size, chunkSize)
  {
    forall i | 0 <= i < k ::
      var n := Count(hits, ChunkAt(size, chunkSize, i), w); n == 0 || n > Unlisted(freqLimit)
  }

  lemma {:induction false} ShownIsAll(
    hits: seq<Hit>, size: nat, chunkSize: nat, freqLimit: int, k: nat, w: Word)
    requires chunkSize > 0 && k <= NumChunks(size, chunkSize)
    ensures var all, shown := CountInFirst(hits, size, chunkSize, k, w),
                              ShownInFirst(hits, size, chunkSize, freqLimit, k, w);
            && shown <= all && (all <= Unlisted(freqLimit) ==> shown == 0)
            && (shown == all <==> NeverBelowLimit(hits, size, chunkSize, freqLimit, k, w))
  {
    if k > 0 {
      ShownIsAll(hits, size, chunkSize, freqLimit, k - 1, w);
    }
  }

  /** Without a cut, the merged frequency is what the chunks show of the value. */
  lemma MergedIsShown(
    hits: seq<Hit>, size: nat, chunkSize: nat, freqLimit: int, maxItems: nat, norms: map<Word, int>,
    lists: seq<seq<Row>>, arrived: seq<seq<Row>>, w: Word)
    requires Corpus(hits, size, norms) && |norms| <= maxItems && w in norms && norms[w] > 0
    requires Answers(hits, size, chunkSize, freqLimit, maxItems, norms, lists)
    requires multiset(arrived) == multiset(lists)
    ensures Total(MergeAll(arrived), w) ==
            ShownInFirst(hits, size, chunkSize, freqLimit, NumChunks(size, chunkSize), w)
  {
    forall i | 0 <= i < |lists|
      ensures Total(lists[i], w) == Shown(Count(hits, ChunkAt(size, chunkSize, i), w), freqLimit)
    {
      ChunkExact(hits, ChunkAt(size, chunkSize, i), freqLimit, maxItems, norms, lists[i], w);
    }
    assert lists[..|lists|] == lists;
    FirstListsExact(hits, size, chunkSize, freqLimit, norms, lists, |lists|, w);
    MergeAllAddsTotals(arrived, w);
    TotalOfAllPermuted(arrived, lists, w);
  }

  /** Without a cut, the merged frequency of a value is its true count exactly when no chunk holds the
      value below the frequency limit; with the default limit of 1 that is always. */
  lemma ExactUnlessBelowLimit(
    hits: seq<Hit>, size: nat, chunkSize: nat, freqLimit: int, maxItems: nat, norms: map<Word, int>,
    lists: seq<seq<Row>>, arrived: seq<seq<Row>>, w: Word)
    requires Corpus(hits, size, norms) && |norms| <= maxItems && w in norms && norms[w] > 0
    requires Answers(hits, size, chunkSize, freqLimit, maxItems, norms, lists)
    requires multiset(arrived) == multiset(lists)
    ensures Total(MergeAll(arrived), w) == Count(hits, Chunk(0, size), w) <==>
            NeverBelowLimit(hits, size, chunkSize, freqLimit, NumChunks(size, chunkSize), w)
    ensures freqLimit <= 1 ==> Total(MergeAll(arrived), w) == Count(hits, Chunk(0, size), w)
  {
    MergedIsShown(hits, size, chunkSize, freqLimit, maxItems, norms, lists, arrived, w);
    ShownIsAll(hits, size, chunkSize, freqLimit, NumChunks(size, chunkSize), w);
    ChunksCountAll(hits, size, chunkSize, w);
  }

  // ----- sorted frequency sequences -----

  predicate Descending(s: seq<int>) {
    forall i, j | 0 <= i < j < |s| :: s[i] >= s[j]
  }

  lemma LeastIsLast(s: seq<int>, x: int)
    requires Descending(s) && x in s
    ensures s[|s| - 1] <= x
  {
  }

  lemma SameLeast(s: seq<int>, t: seq<int>)
    requires Descending(s) && Descending(t) && multiset(s) == multiset(t) && s != []
    ensures |s| == |t| && s[|s| - 1] == t[|t| - 1]
    ensures multiset(s[..|s| - 1]) == multiset(t[..|t| - 1])
  {
    assert |t| == |multiset(t)| == |multiset(s)| == |s|;
    SameMembers(s, t, s[|s| - 1]);
    SameMembers(s, t, t[|t| - 1]);
    LeastIsLast(s, t[|t| - 1]);
    LeastIsLast(t, s[|s| - 1]);
    RemovedLast(s);
    RemovedLast(t);
  }

  lemma {:induction false} DescendingIsUnique(s: seq<int>, t: seq<int>)
    requires Descending(s) && Descending(t) && multiset(s) == multiset(t)
    ensures s == t
  {
    if s == [] {
      assert |multiset(t)| == 0;
    } else {
      SameLeast(s, t);
      DescendingIsUnique(s[..|s| - 1], t[..|t| - 1]);
      assert s == s[..|s| - 1] + [s[|s| - 1]];
      assert t == t[..|t| - 1] + [t[|t| - 1]];
    }
  }

  lemma FreqsPermuted(rows: seq<Row>, other: seq<Row>)
    requires multiset(Entries(rows)) == multiset(Entries(other))
    ensures multiset(Freqs(rows)) == multiset(Freqs(other))
  {
    var f := (e: Entry) => e.freq;
    ApplyPermuted(f, Entries(rows), Entries(other));
    assert Apply(f, Entries(rows)) == Freqs(rows);
    assert Apply(f, Entries(other)) == Freqs(other);
  }

  lemma SortedFreqs(rows: seq<Row>)
    ensures multiset(Entries(SortStable(rows))) == multiset(Entries(rows))
    ensures Descending(Freqs(SortStable(rows)))
  {
    SortSorts(rows);
    ApplyPermuted(EntryOf, SortStable(rows), rows);
    assert Apply(EntryOf, SortStable(rows)) == Entries(SortStable(rows));
    assert Apply(EntryOf, rows) == Entries(rows);
  }

  // ----- the parallel form refines the sequential one -----

  /** The frequency limit hides the value in the chunks no more than it does in the whole corpus. */
  predicate LimitIsHarmless(hits: seq<Hit>, size: nat, chunkSize: nat, freqLimit: int, w: Word)
    requires chunkSize > 0
  {
    || Count(hits, Chunk(0, size), w) <= Unlisted(freqLimit)
    || NeverBelowLimit(hits, size, chunkSize, freqLimit, NumChunks(size, chunkSize), w)
  }

  lemma TotalsAgree(
    hits: seq<Hit>, size: nat, chunkSize: nat, freqLimit: int, maxItems: nat, norms: map<Word, int>,
    lists: seq<seq<Row>>, arrived: seq<seq<Row>>, whole: seq<Row>, w: Word)
    requires Corpus(hits, size, norms) && |norms| <= maxItems && w in norms
    requires Answers(hits, size, chunkSize, freqLimit, maxItems, norms, lists)
    requires multiset(arrived) == multiset(lists)
    requires ChunkAnswer(hits, Chunk(0, size), freqLimit, maxItems, norms, whole)
    ensures Total(MergeAll(arrived), w) == Total(whole, w) <==>
            norms[w] <= 0 || LimitIsHarmless(hits, size, chunkSize, freqLimit, w)
  {
    ChunkExact(hits, Chunk(0, size), freqLimit, maxItems, norms, whole, w);
    if norms[w] > 0 {
      MergedIsShown(hits, size, chunkSize, freqLimit, maxItems, norms, lists, arrived, w);
      ShownIsAll(hits, size, chunkSize, freqLimit, NumChunks(size, chunkSize), w);
      ChunksCountAll(hits, size, chunkSize, w);
    } else {
      assert |norms| > 0 by { assert w in norms.Keys; }
      TopKErrorBound(hits, size, chunkSize, freqLimit, maxItems, norms, lists, arrived, w);
    }
  }

  /** The merged list of all answers names each norm once, so the cut takes nothing away. */
  lemma MergedNamesNorms(
    hits: seq<Hit>, size: nat, chunkSize: nat, freqLimit: int, maxItems: nat, norms: map<Word, int>,
    lists: seq<seq<Row>>, arrived: seq<seq<Row>>)
    requires Corpus(hits, size, norms) && 0 < |norms| <= maxItems && size > 0
    requires Answers(hits, size, chunkSize, freqLimit, maxItems, norms, lists)
    requires multiset(arrived) == multiset(lists)
    ensures var merged := MergeAll(arrived);
            && DistinctWords(merged) && BasesFrom(merged, norms) && (forall w | w in norms :: Has(merged, w))
            && Cut(SortStable(merged), maxItems) == SortStable(merged)
  {
    MergedWellFormed(hits, size, chunkSize, freqLimit, maxItems, norms, lists, arrived);
    RowPerKey(MergeAll(arrived), norms.Keys);
    assert |norms.Keys| == |norms|;
  }

  /** Without a cut, for every frequency limit: splitting, compiling per chunk, merging in any order of
      arrival, sorting and cutting gives the (word, freq, base) entries of one compilation of the whole
      corpus under the same limit, if and only if the limit is harmless for each value of positive norm.
      The sorted frequencies are then the same, too. */
  lemma ParallelRefinesSequential(
    hits: seq<Hit>, size: nat, chunkSize: nat, freqLimit: int, maxItems: nat, norms: map<Word, int>,
    lists: seq<seq<Row>>, arrived: seq<seq<Row>>, whole: seq<Row>)
    requires Corpus(hits, size, norms) && 0 < |norms| <= maxItems && size > 0
    requires Answers(hits, size, chunkSize, freqLimit, maxItems, norms, lists)
    requires multiset(arrived) == multiset(lists)
    requires ChunkAnswer(hits, Chunk(0, size), freqLimit, maxItems, norms, whole)
    ensures var final := Cut(SortStable(MergeAll(arrived)), maxItems);
            && (multiset(Entries(final)) == multiset(Entries(whole)) <==>
                forall w | w in norms && norms[w] > 0 :: LimitIsHarmless(hits, size, chunkSize, freqLimit, w))
            && (multiset(Entries(final)) == multiset(Entries(whole)) ==> Freqs(final) == Freqs(whole))
  {
    var merged := MergeAll(arrived);
    forall w | w in norms
      ensures Total(merged, w) == Total(whole, w) <==>
              norms[w] <= 0 || LimitIsHarmless(hits, size, chunkSize, freqLimit, w)
    {
      TotalsAgree(hits, size, chunkSize, freqLimit, maxItems, norms, lists, arrived, whole, w);
    }
    MergedNamesNorms(hits, size, chunkSize, freqLimit, maxItems, norms, lists, arrived);
    ChunkWellFormed(hits, Chunk(0, size), freqLimit, maxItems, norms, whole);
    EqualEntries(merged, whole, norms);
    SortedFreqs(merged);
    if multiset(Entries(merged)) == multiset(Entries(whole)) {
      SameSortedFreqs(SortStable(merged), whole);
    }
  }

  lemma SameSortedFreqs(rows: seq<Row>, other: seq<Row>)
    requires multiset(Entries(rows)) == multiset(Entries(other))
    requires Descending(Freqs(rows)) && SortedDesc(other)
    ensures Freqs(rows) == Freqs(other)
  {
    FreqsPermuted(rows, other);
    DescendingIsUnique(Freqs(rows), Freqs(other));
  }

  /** With the default limit of 1 the refinement always holds. */
  lemma DefaultLimitRefines(
    hits: seq<Hit>, size: nat, chunkSize: nat, freqLimit: int, maxItems: nat, norms: map<Word, int>,
    lists: seq<seq<Row>>, arrived: seq<seq<Row>>, whole: seq<Row>)
    requires Corpus(hits, size, norms) && freqLimit <= 1 && 0 < |norms| <= maxItems && size > 0
    requires Answers(hits, size, chunkSize, freqLimit, maxItems, norms, lists)
    requires multiset(arrived) == multiset(lists)
    requires ChunkAnswer(hits, Chunk(0, size), freqLimit, maxItems, norms, whole)
    ensures var final := Cut(SortStable(MergeAll(arrived)), maxItems);
            multiset(Entries(final)) == multiset(Entries(whole)) && Freqs(final) == Freqs(whole)
  {
    ParallelRefinesSequential(hits, size, chunkSize, freqLimit, maxItems, norms, lists, arrived, whole);
  }

  /** An empty corpus has no chunk, so the parallel form lists nothing while the sequential one still
      lists every norm. */
  lemma EmptyCorpusListsNothing(
    hits: seq<Hit>, chunkSize: nat, freqLimit: int, maxItems: nat, norms: map<Word, int>,
    lists: seq<seq<Row>>, whole: seq<Row>)
    requires Corpus(hits, 0, norms) && 0 < |norms| <= maxItems
    requires Answers(hits, 0, chunkSize, freqLimit, maxItems, norms, lists)
    requires ChunkAnswer(hits, Chunk(0, 0), freqLimit, maxItems, norms, whole)
    ensures MergeAll(lists) == [] && |whole| == |norms| > 0
  {
    ChunkWellFormed(hits, Chunk(0, 0), freqLimit, maxItems, norms, whole);
    assert |lists| == 0 by {
      var n := NumChunks(0, chunkSize);
      if n > 0 {
        ChunkBounds(0, chunkSize, 0, n);
      }
    }
  }

  // ----- values without positions -----

  lemma ZeroNormInAnswer(
    hits: seq<Hit>, c: Chunk, freqLimit: int, maxItems: nat, norms: map<Word, int>, ans: seq<Row>, w: Word)
    requires w in norms && norms[w] == 0 && ChunkAnswer(hits, c, freqLimit, maxItems, norms, ans)
    ensures DistinctWords(ans) && (RowOf(ans, w) == [] || RowOf(ans, w) == [Row(w, 0, 0, Finite(0.0))])
    ensures |norms| <= maxItems ==> RowOf(ans, w) != []
  {
    ChunkWellFormed(hits, c, freqLimit, maxItems, norms, ans);
    var words, freqs :|
      && Listed(hits, c, freqLimit, words, freqs)
      && Compiled(words, freqs, c.to - c.from, maxItems, norms, ans);
    if Find(ans, w) < |ans| {
      ZeroNormRow(words, freqs, c.to - c.from, maxItems, norms, ans, Find(ans, w));
    }
  }

  lemma {:induction false} MentionedByAll(lists: seq<seq<Row>>, w: Word)
    requires forall i | 0 <= i < |lists| :: RowOf(lists[i], w) != []
    ensures Mentions(lists, w) == |lists|
  {
    if lists != [] {
      MentionedByAll(lists[..|lists| - 1], w);
    }
  }

  /** The merged row of a value of norm 0, whatever the workers answered: its IPM is a number only while
      one list at most names it. If nothing is cut, that is exactly when there is one chunk. */
  lemma ZeroNormMerged(
    hits: seq<Hit>, size: nat, chunkSize: nat, freqLimit: int, maxItems: nat, norms: map<Word, int>,
    lists: seq<seq<Row>>, arrived: seq<seq<Row>>, w: Word)
    requires w in norms && norms[w] == 0
    requires Answers(hits, size, chunkSize, freqLimit, maxItems, norms, lists)
    requires multiset(arrived) == multiset(lists)
    ensures var k := Mentions(arrived, w);
            RowOf(MergeAll(arrived), w) ==
            if k == 0 then [] else [Row(w, 0, 0, if k == 1 then Finite(0.0) else NotANumber)]
    ensures |norms| <= maxItems ==> Mentions(arrived, w) == NumChunks(size, chunkSize)
  {
    forall i | 0 <= i < |arrived|
      ensures DistinctWords(arrived[i])
      ensures RowOf(arrived[i], w) == [] || RowOf(arrived[i], w) == [Row(w, 0, 0, Finite(0.0))]
      ensures |norms| <= maxItems ==> RowOf(arrived[i], w) != []
    {
      SameMembers(arrived, lists, arrived[i]);
      var j :| 0 <= j < |lists| && lists[j] == arrived[i];
      ZeroNormInAnswer(hits, ChunkAt(size, chunkSize, j), freqLimit, maxItems, norms, lists[j], w);
    }
    ZeroNormIpm(arrived, w);
    assert |arrived| == |multiset(arrived)| == |multiset(lists)| == |lists|;
    if |norms| <= maxItems {
      MentionedByAll(arrived, w);
    }
  }
}
