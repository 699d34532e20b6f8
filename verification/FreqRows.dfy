/** Frequency lists as plain values: the rows of a `FreqDistrib`, the merge of two lists, the stable
    sort by frequency and the cut. `FreqDistribs.dfy` proves the pointer code against these functions. */
module FreqRows {
  import opened Permutations

  /** An IPM as Go's floating point division leaves it, with rounding idealised away. */
  datatype Ipm = Finite(value: real) | NotANumber | Infinite(positive: bool)

  /** A value of an attribute. */
  datatype Word = Word(text: string)

  datatype Row = Row(word: Word, freq: int, base: int, ipm: Ipm)

  function IpmOf(freq: int, base: int): Ipm {
    if base != 0 then Finite(freq as real / base as real * 1000000.0)
    else if freq == 0 then NotANumber
    else Infinite(freq > 0)
  }

  // ----- lookup and merge -----

  /** The first row with the given word, or the length of the list. */
  function Find(rows: seq<Row>, w: Word): (i: nat)
    ensures i <= |rows|
    ensures i < |rows| ==> rows[i].word == w
    ensures forall j | 0 <= j < i :: rows[j].word != w
  {
    if rows == [] then 0
    else
      var i := Find(rows[..|rows| - 1], w);
      if i < |rows| - 1 || rows[i].word == w then i else i + 1
  }

  function AddRow(rows: seq<Row>, r: Row): seq<Row> {
    var i := Find(rows, r.word);
    if i < |rows| then
      var freq := rows[i].freq + r.freq;
      rows[i := rows[i].(freq := freq, ipm := IpmOf(freq, rows[i].base))]
    else
      rows + [r]
  }

  function Merge(rows: seq<Row>, other: seq<Row>): seq<Row> {
    if other == [] then rows
    else AddRow(Merge(rows, other[..|other| - 1]), other[|other| - 1])
  }

  /** The merge of all lists, in the order in which they arrive. */
  function MergeAll(lists: seq<seq<Row>>): seq<Row> {
    if lists == [] then []
    else Merge(MergeAll(lists[..|lists| - 1]), lists[|lists| - 1])
  }

  // ----- what a list says -----

  function Total(rows: seq<Row>, w: Word): int {
    if rows == [] then 0
    else
      var r := rows[|rows| - 1];
      Total(rows[..|rows| - 1], w) + if r.word == w then r.freq else 0
  }

  function TotalOfAll(lists: seq<seq<Row>>, w: Word): int {
    SumBy((l: seq<Row>) => Total(l, w), lists)
  }

  predicate Has(rows: seq<Row>, w: Word) {
    exists i :: 0 <= i < |rows| && rows[i].word == w
  }

  predicate DistinctWords(rows: seq<Row>) {
    forall i, j | 0 <= i < j < |rows| :: rows[i].word != rows[j].word
  }

  /** IPM * Base = 1e6 * Freq wherever the base is positive. */
  predicate IpmExact(rows: seq<Row>) {
    forall i | 0 <= i < |rows| :: IsExact(rows[i])
  }

  predicate IsExact(r: Row) {
    r.base > 0 ==> r.ipm.Finite? && r.ipm.value * r.base as real == 1000000.0 * r.freq as real
  }

  predicate BasesFrom(rows: seq<Row>, norms: map<Word, int>) {
    forall i | 0 <= i < |rows| :: rows[i].word in norms && rows[i].base == norms[rows[i].word]
  }

  predicate NonNegative(rows: seq<Row>) {
    forall i | 0 <= i < |rows| :: rows[i].freq >= 0
  }

  // ----- the merge adds frequencies -----

  lemma {:induction false} TotalUpdated(rows: seq<Row>, i: nat, r: Row, w: Word)
    requires i < |rows| && r.word == rows[i].word
    ensures Total(rows[i := r], w) == Total(rows, w) + if r.word == w then r.freq - rows[i].freq else 0
  {
    var n := |rows| - 1;
    if i == n {
      assert rows[i := r][..n] == rows[..n];
    } else {
      assert rows[i := r][..n] == rows[..n][i := r];
      TotalUpdated(rows[..n], i, r, w);
    }
  }

  lemma TotalAdded(rows: seq<Row>, r: Row, w: Word)
    ensures Total(AddRow(rows, r), w) == Total(rows, w) + if r.word == w then r.freq else 0
  {
    var i := Find(rows, r.word);
    if i < |rows| {
      TotalUpdated(rows, i, AddRow(rows, r)[i], w);
    } else {
      assert (rows + [r])[..|rows|] == rows;
    }
  }

  lemma {:induction false} MergeAddsTotals(rows: seq<Row>, other: seq<Row>, w: Word)
    ensures Total(Merge(rows, other), w) == Total(rows, w) + Total(other, w)
  {
    if other != [] {
      var n := |other| - 1;
      MergeAddsTotals(rows, other[..n], w);
      TotalAdded(Merge(rows, other[..n]), other[n], w);
    }
  }

  lemma {:induction false} MergeAllAddsTotals(lists: seq<seq<Row>>, w: Word)
    ensures Total(MergeAll(lists), w) == TotalOfAll(lists, w)
  {
    if lists != [] {
      var n := |lists| - 1;
      MergeAllAddsTotals(lists[..n], w);
      MergeAddsTotals(MergeAll(lists[..n]), lists[n], w);
    }
  }

  // ----- the merge keeps lists well formed -----

  lemma HasAdded(rows: seq<Row>, r: Row, w: Word)
    ensures Has(AddRow(rows, r), w) <==> Has(rows, w) || r.word == w
  {
    var i := Find(rows, r.word);
    var out := AddRow(rows, r);
    assert forall j | 0 <= j < |rows| :: out[j].word == rows[j].word;
    if i < |rows| {
      assert out[i].word == r.word;
    } else {
      assert out[|rows|] == r;
    }
  }

  lemma {:induction false} MergeUnitesWords(rows: seq<Row>, other: seq<Row>, w: Word)
    ensures Has(Merge(rows, other), w) <==> Has(rows, w) || Has(other, w)
  {
    if other != [] {
      var n := |other| - 1;
      MergeUnitesWords(rows, other[..n], w);
      HasAdded(Merge(rows, other[..n]), other[n], w);
      assert Has(other, w) <==> Has(other[..n], w) || other[n].word == w by {
        if Has(other[..n], w) {
          var i :| 0 <= i < n && other[..n][i].word == w;
          assert other[i].word == w;
        }
        if Has(other, w) && other[n].word != w {
          var i :| 0 <= i < |other| && other[i].word == w;
          assert other[..n][i].word == w;
        }
      }
    }
  }

  lemma {:induction false} MergeKeepsDistinct(rows: seq<Row>, other: seq<Row>)
    requires DistinctWords(rows)
    ensures DistinctWords(Merge(rows, other))
  {
    if other != [] {
      MergeKeepsDistinct(rows, other[..|other| - 1]);
    }
  }

  lemma IpmOfIsExact(w: Word, freq: int, base: int)
    ensures IsExact(Row(w, freq, base, IpmOf(freq, base)))
  {
    if base > 0 {
      assert freq as real / base as real * base as real == freq as real;
    }
  }

  lemma AddKeepsIpm(rows: seq<Row>, r: Row, norms: map<Word, int>)
    requires IpmExact(rows) && IsExact(r)
    requires BasesFrom(rows, norms) && r.word in norms && r.base == norms[r.word]
    ensures IpmExact(AddRow(rows, r)) && BasesFrom(AddRow(rows, r), norms)
  {
    var i := Find(rows, r.word);
    if i < |rows| {
      IpmOfIsExact(r.word, rows[i].freq + r.freq, rows[i].base);
    }
  }

  /** A merged row keeps the base of the first list that named the word, and its IPM is the exact
      ratio of the summed frequency to that base. */
  lemma {:induction false} MergeKeepsIpm(rows: seq<Row>, other: seq<Row>, norms: map<Word, int>)
    requires IpmExact(rows) && IpmExact(other) && BasesFrom(rows, norms) && BasesFrom(other, norms)
    ensures IpmExact(Merge(rows, other)) && BasesFrom(Merge(rows, other), norms)
  {
    if other != [] {
      var n := |other| - 1;
      MergeKeepsIpm(rows, other[..n], norms);
      AddKeepsIpm(Merge(rows, other[..n]), other[n], norms);
    }
  }

  /** No row disappears, moves or shrinks when further non-negative lists are merged in: what a
      reader of an earlier snapshot sees through shared pointers only grows. */
  predicate Grown(before: seq<Row>, after: seq<Row>) {
    && |before| <= |after|
    && forall i | 0 <= i < |before| ::
         after[i].word == before[i].word && after[i].base == before[i].base && after[i].freq >= before[i].freq
  }

  lemma {:induction false} MergeGrows(rows: seq<Row>, other: seq<Row>)
    requires NonNegative(other)
    ensures Grown(rows, Merge(rows, other))
    ensures NonNegative(rows) ==> NonNegative(Merge(rows, other))
  {
    if other != [] {
      MergeGrows(rows, other[..|other| - 1]);
    }
  }

  lemma {:induction false} MergeAllWellFormed(lists: seq<seq<Row>>, norms: map<Word, int>)
    requires forall i | 0 <= i < |lists| :: IpmExact(lists[i]) && BasesFrom(lists[i], norms)
    ensures DistinctWords(MergeAll(lists)) && IpmExact(MergeAll(lists)) && BasesFrom(MergeAll(lists), norms)
  {
    if lists != [] {
      var n := |lists| - 1;
      MergeAllWellFormed(lists[..n], norms);
      MergeKeepsDistinct(MergeAll(lists[..n]), lists[n]);
      MergeKeepsIpm(MergeAll(lists[..n]), lists[n], norms);
    }
  }

  lemma {:induction false} MergeAllWords(lists: seq<seq<Row>>, w: Word)
    ensures Has(MergeAll(lists), w) <==> exists i :: 0 <= i < |lists| && Has(lists[i], w)
  {
    if lists != [] {
      var n := |lists| - 1;
      MergeAllWords(lists[..n], w);
      MergeUnitesWords(MergeAll(lists[..n]), lists[n], w);
      assert forall i | 0 <= i < n :: lists[..n][i] == lists[i];
    }
  }

  /** In a list with distinct words the total of a word is the frequency of its only row. */
  lemma {:induction false} TotalIsFreq(rows: seq<Row>, i: nat)
    requires i < |rows| && DistinctWords(rows)
    ensures Total(rows, rows[i].word) == rows[i].freq
  {
    var n := |rows| - 1;
    if i < n {
      TotalIsFreq(rows[..n], i);
      assert rows[..n][i] == rows[i];
    } else {
      TotalOfAbsent(rows[..n], rows[n].word);
    }
  }

  lemma {:induction false} TotalOfAbsent(rows: seq<Row>, w: Word)
    requires !Has(rows, w)
    ensures Total(rows, w) == 0
  {
    if rows != [] {
      var n := |rows| - 1;
      assert rows[n].word != w;
      assert forall i | 0 <= i < n :: rows[..n][i] == rows[i];
      TotalOfAbsent(rows[..n], w);
    }
  }

  lemma {:induction false} MergeAllDistinct(lists: seq<seq<Row>>)
    ensures DistinctWords(MergeAll(lists))
  {
    if lists != [] {
      MergeAllDistinct(lists[..|lists| - 1]);
      MergeKeepsDistinct(MergeAll(lists[..|lists| - 1]), lists[|lists| - 1]);
    }
  }

  /** A word among the first rows of a list with distinct words is not among the others. */
  lemma TotalWithin(rows: seq<Row>, n: nat, w: Word)
    requires DistinctWords(rows) && n <= |rows| && Has(rows[..n], w)
    ensures Total(rows[..n], w) == Total(rows, w)
  {
    var i :| 0 <= i < n && rows[..n][i].word == w;
    TotalIsFreq(rows, i);
    TotalIsFreq(rows[..n], i);
  }

  // ----- arrival order does not matter -----

  lemma TotalOfAllPermuted(lists: seq<seq<Row>>, arrived: seq<seq<Row>>, w: Word)
    requires multiset(lists) == multiset(arrived)
    ensures TotalOfAll(lists, w) == TotalOfAll(arrived, w)
  {
    SumByPermuted((l: seq<Row>) => Total(l, w), lists, arrived);
  }

  /** Every arrival order of the same lists gives the same words with the same frequencies. */
  lemma MergeAllOrderIndependent(lists: seq<seq<Row>>, arrived: seq<seq<Row>>, w: Word)
    requires multiset(lists) == multiset(arrived)
    ensures Total(MergeAll(lists), w) == Total(MergeAll(arrived), w)
    ensures Has(MergeAll(lists), w) <==> Has(MergeAll(arrived), w)
  {
    MergeAllAddsTotals(lists, w);
    MergeAllAddsTotals(arrived, w);
    TotalOfAllPermuted(lists, arrived, w);
    MergeAllWords(lists, w);
    MergeAllWords(arrived, w);
    forall i | 0 <= i < |lists| ensures lists[i] in arrived { SameMembers(lists, arrived, lists[i]); }
    forall i | 0 <= i < |arrived| ensures arrived[i] in lists { SameMembers(lists, arrived, arrived[i]); }
  }

  // ----- values without positions -----

  /** The rows of one word: none, or the first one. */
  function RowOf(rows: seq<Row>, w: Word): (r: seq<Row>) {
    var i := Find(rows, w);
    if i < |rows| then [rows[i]] else []
  }

  function Joined(mine: seq<Row>, r: Row): seq<Row> {
    if mine == [] then [r]
    else [mine[0].(freq := mine[0].freq + r.freq, ipm := IpmOf(mine[0].freq + r.freq, mine[0].base))]
  }

  lemma RowOfAdded(rows: seq<Row>, r: Row, w: Word)
    ensures RowOf(AddRow(rows, r), w) == if r.word == w then Joined(RowOf(rows, w), r) else RowOf(rows, w)
  {
    var out := AddRow(rows, r);
    var i, j := Find(rows, w), Find(out, w);
    assert forall k | 0 <= k < |rows| :: out[k].word == rows[k].word;
    if i < |rows| {
      assert j == i by { assert out[i].word == w; }
    } else if r.word == w {
      assert out[|rows|] == r;
    }
  }

  lemma {:induction false} RowOfMerged(rows: seq<Row>, other: seq<Row>, w: Word)
    requires DistinctWords(other)
    ensures RowOf(Merge(rows, other), w) ==
            if RowOf(other, w) == [] then RowOf(rows, w) else Joined(RowOf(rows, w), RowOf(other, w)[0])
  {
    if other != [] {
      var n := |other| - 1;
      RowOfMerged(rows, other[..n], w);
      RowOfAdded(Merge(rows, other[..n]), other[n], w);
      var i, j := Find(other, w), Find(other[..n], w);
      assert j < n ==> other[j].word == w;
    }
  }

  function Mentions(lists: seq<seq<Row>>, w: Word): nat {
    if lists == [] then 0
    else Mentions(lists[..|lists| - 1], w) + if RowOf(lists[|lists| - 1], w) == [] then 0 else 1
  }

  /** A value whose norm is 0 gets a zero row with IPM 0 in every worker's list. The first merge of two
      such rows divides 0 by 0: the merged IPM is a number exactly when one list at most names the value. */
  lemma {:induction false} ZeroNormIpm(lists: seq<seq<Row>>, w: Word)
    requires forall i | 0 <= i < |lists| ::
               && DistinctWords(lists[i])
               && (RowOf(lists[i], w) == [] || RowOf(lists[i], w) == [Row(w, 0, 0, Finite(0.0))])
    ensures var k := Mentions(lists, w);
            RowOf(MergeAll(lists), w) ==
            if k == 0 then [] else [Row(w, 0, 0, if k == 1 then Finite(0.0) else NotANumber)]
  {
    if lists != [] {
      var n := |lists| - 1;
      ZeroNormIpm(lists[..n], w);
      RowOfMerged(MergeAll(lists[..n]), lists[n], w);
    }
  }

  // ----- sorting and cutting -----

  predicate SortedDesc(rows: seq<Row>) {
    forall i, j | 0 <= i < j < |rows| :: rows[i].freq >= rows[j].freq
  }

  function Freqs(rows: seq<Row>): (fs: seq<int>)
    ensures |fs| == |rows| && forall i | 0 <= i < |rows| :: fs[i] == rows[i].freq
  {
    seq(|rows|, i requires 0 <= i < |rows| => rows[i].freq)
  }

  /** Rows of one frequency, in list order. */
  function WithFreq(rows: seq<Row>, f: int): seq<Row> {
    if rows == [] then []
    else WithFreq(rows[..|rows| - 1], f) + if rows[|rows| - 1].freq == f then [rows[|rows| - 1]] else []
  }

  /** Inserts behind every row that is at least as frequent. */
  function InsertStable(rows: seq<Row>, r: Row): (out: seq<Row>)
    ensures |out| == |rows| + 1
  {
    if rows == [] || rows[|rows| - 1].freq >= r.freq then rows + [r]
    else InsertStable(rows[..|rows| - 1], r) + [rows[|rows| - 1]]
  }

  function SortStable(rows: seq<Row>): (out: seq<Row>)
    ensures |out| == |rows|
  {
    if rows == [] then []
    else InsertStable(SortStable(rows[..|rows| - 1]), rows[|rows| - 1])
  }

  lemma {:induction false} InsertPermutes(rows: seq<Row>, r: Row)
    ensures multiset(InsertStable(rows, r)) == multiset(rows) + multiset{r}
  {
    if rows != [] && rows[|rows| - 1].freq < r.freq {
      var n := |rows| - 1;
      InsertPermutes(rows[..n], r);
      assert rows == rows[..n] + [rows[n]];
    }
  }

  lemma {:induction false} InsertSorts(rows: seq<Row>, r: Row)
    requires SortedDesc(rows)
    ensures SortedDesc(InsertStable(rows, r))
  {
    if rows != [] && rows[|rows| - 1].freq < r.freq {
      var n := |rows| - 1;
      var head := InsertStable(rows[..n], r);
      InsertSorts(rows[..n], r);
      InsertPermutes(rows[..n], r);
      forall i | 0 <= i < |head| ensures head[i].freq >= rows[n].freq {
        assert head[i] in multiset(head);
        assert head[i] == r || head[i] in rows[..n];
      }
    }
  }

  lemma {:induction false} SortSorts(rows: seq<Row>)
    ensures SortedDesc(SortStable(rows)) && multiset(SortStable(rows)) == multiset(rows)
  {
    if rows != [] {
      var n := |rows| - 1;
      SortSorts(rows[..n]);
      InsertSorts(SortStable(rows[..n]), rows[n]);
      InsertPermutes(SortStable(rows[..n]), rows[n]);
      assert rows == rows[..n] + [rows[n]];
    }
  }

  lemma WithFreqSnoc(rows: seq<Row>, r: Row, f: int)
    ensures WithFreq(rows + [r], f) == WithFreq(rows, f) + if r.freq == f then [r] else []
  {
    assert (rows + [r])[..|rows|] == rows;
  }

  lemma {:induction false} InsertIsStable(rows: seq<Row>, r: Row, f: int)
    ensures WithFreq(InsertStable(rows, r), f) == WithFreq(rows, f) + if r.freq == f then [r] else []
  {
    if rows == [] || rows[|rows| - 1].freq >= r.freq {
      WithFreqSnoc(rows, r, f);
    } else {
      var n := |rows| - 1;
      InsertIsStable(rows[..n], r, f);
      WithFreqSnoc(InsertStable(rows[..n], r), rows[n], f);
    }
  }

  /** Equally frequent rows keep their order. */
  lemma {:induction false} SortIsStable(rows: seq<Row>, f: int)
    ensures WithFreq(SortStable(rows), f) == WithFreq(rows, f)
  {
    if rows != [] {
      SortIsStable(rows[..|rows| - 1], f);
      InsertIsStable(SortStable(rows[..|rows| - 1]), rows[|rows| - 1], f);
    }
  }

  function Cut(rows: seq<Row>, maxItems: nat): seq<Row> {
    if |rows| > maxItems then rows[..maxItems] else rows
  }
}
