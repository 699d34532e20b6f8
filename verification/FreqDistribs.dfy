/** `FreqDistrib` on the heap (rdb/results/results.go): the merge stores the other side's item pointers
    and later updates the items through them. */
module FreqDistribs {
  import opened FreqRows

  class FreqDistribItem {
    var word: Word
    var freq: int
    var base: int
    var ipm: Ipm

    function AsRow(): Row
      reads this
    {
      Row(word, freq, base, ipm)
    }

    constructor (row: Row)
      ensures AsRow() == row
    {
      word, freq, base, ipm := row.word, row.freq, row.base, row.ipm;
    }
  }

  function RowsOf(items: seq<FreqDistribItem>): (rows: seq<Row>)
    reads items
    ensures |rows| == |items|
    ensures forall i | 0 <= i < |items| :: rows[i] == items[i].AsRow()
  {
    seq(|items|, i requires 0 <= i < |items| reads items => items[i].AsRow())
  }

  predicate NoSharing(items: seq<FreqDistribItem>) {
    forall i, j | 0 <= i < j < |items| :: items[i] != items[j]
  }

  class FreqDistrib {
    var concSize: int
    var corpusSize: int
    var examplesQueryTpl: string
    var freqs: seq<FreqDistribItem>

    function Items(): set<FreqDistribItem>
      reads this
    {
      set x | x in freqs
    }

    constructor ()
      ensures concSize == 0 && corpusSize == 0 && examplesQueryTpl == "" && freqs == []
    {
      concSize, corpusSize, examplesQueryTpl, freqs := 0, 0, "", [];
    }

    method FindItem(w: Word) returns (item: FreqDistribItem?)
      ensures item == null <==> !Has(RowsOf(freqs), w)
      ensures item != null ==>
                var i := Find(RowsOf(freqs), w); i < |freqs| && item == freqs[i]
    {
      for i := 0 to |freqs|
        invariant forall j | 0 <= j < i :: freqs[j].word != w
      {
        if freqs[i].word == w {
          assert RowsOf(freqs)[i].word == w;
          return freqs[i];
        }
      }
      return null;
    }

    /** Adds one item of the other side: updates the item with the same word or stores the pointer.
        The stored item keeps the IPM it came with. */
    method MergeItem(v2: FreqDistribItem)
      requires NoSharing(freqs) && v2 !in freqs
      modifies this`freqs, Items()
      ensures RowsOf(freqs) == AddRow(old(RowsOf(freqs)), v2.AsRow())
      ensures NoSharing(freqs)
      ensures freqs == old(freqs) || freqs == old(freqs) + [v2]
    {
      ghost var before := RowsOf(freqs);
      var v1 := FindItem(v2.word);
      if v1 != null {
        ghost var at := Find(before, v2.word);
        v1.freq := v1.freq + v2.freq;
        v1.ipm := IpmOf(v1.freq, v1.base);
        assert RowsOf(freqs) == before[at := freqs[at].AsRow()];
      } else {
        assert Find(before, v2.word) == |before|;
        freqs := freqs + [v2];
        assert RowsOf(freqs) == before + [v2.AsRow()];
      }
    }

    /** The loop over the items of the other side. */
    method MergeItems(others: seq<FreqDistribItem>)
      requires NoSharing(freqs) && NoSharing(others) && forall x | x in others :: x !in freqs
      modifies this`freqs, Items(), set x | x in others
      ensures RowsOf(freqs) == Merge(old(RowsOf(freqs)), old(RowsOf(others)))
      ensures old(freqs) <= freqs && NoSharing(freqs)
      ensures Items() <= old(Items()) + set x | x in others
    {
      ghost var mine, theirs := RowsOf(freqs), RowsOf(others);
      for i := 0 to |others|
        invariant old(freqs) <= freqs && NoSharing(freqs)
        invariant Items() <= old(Items()) + set x | x in others
        invariant forall k | i <= k < |others| :: others[k] !in freqs && others[k].AsRow() == theirs[k]
        invariant RowsOf(freqs) == Merge(mine, theirs[..i])
      {
        assert theirs[..i + 1][..i] == theirs[..i];
        MergeItem(others[i]);
      }
      assert theirs[..|others|] == theirs;
    }

    /** Merges `other` in. The items of the two lists must be different objects, as they are when each
        list was decoded from its own worker message. */
    method MergeWith(other: FreqDistrib)
      requires other != this && NoSharing(freqs) && NoSharing(other.freqs)
      requires forall x | x in other.freqs :: x !in freqs
      modifies this, Items(), other.Items()
      ensures concSize == old(concSize) + other.concSize
      ensures corpusSize == other.corpusSize && examplesQueryTpl == ""
      ensures RowsOf(freqs) == Merge(old(RowsOf(freqs)), old(RowsOf(other.freqs)))
      ensures old(freqs) <= freqs
      ensures NoSharing(freqs) && Items() <= old(Items()) + other.Items()
    {
      concSize := concSize + other.concSize;
      corpusSize := other.corpusSize;
      examplesQueryTpl := "";
      MergeItems(other.freqs);
    }
  }

  // ----- TextTypesParallel (corpus/handlers/ttypes2.go) -----

  function Sum(sizes: seq<int>): int {
    if sizes == [] then 0 else Sum(sizes[..|sizes| - 1]) + sizes[|sizes| - 1]
  }

  function ItemsOf(results: seq<FreqDistrib>): set<FreqDistribItem>
    reads results
  {
    set k, x | 0 <= k < |results| && x in results[k].freqs :: x
  }

  /** One step of the stable sort of the pointer list. */
  method InsertItem(items: seq<FreqDistribItem>, x: FreqDistribItem) returns (out: seq<FreqDistribItem>)
    ensures RowsOf(out) == InsertStable(RowsOf(items), x.AsRow())
  {
    if items == [] || items[|items| - 1].freq >= x.freq {
      out := items + [x];
      assert RowsOf(out) == RowsOf(items) + [x.AsRow()];
    } else {
      var n := |items| - 1;
      var head := InsertItem(items[..n], x);
      out := head + [items[n]];
      assert RowsOf(items)[..n] == RowsOf(items[..n]);
      assert RowsOf(out) == RowsOf(head) + [items[n].AsRow()];
    }
  }

  method SortItems(items: seq<FreqDistribItem>) returns (out: seq<FreqDistribItem>)
    ensures RowsOf(out) == SortStable(RowsOf(items))
  {
    out := [];
    for i := 0 to |items|
      invariant RowsOf(out) == SortStable(RowsOf(items)[..i])
    {
      out := InsertItem(out, items[i]);
      assert RowsOf(items)[..i + 1][..i] == RowsOf(items)[..i];
    }
    assert RowsOf(items)[..|items|] == RowsOf(items);
  }

  /** From `i` on, the results hold the given rows in items that no other list points to. All items are
      among `items`. */
  ghost predicate Pending(
    result: FreqDistrib, arrived: seq<FreqDistrib>, i: nat, sizes: seq<int>, corpusSizes: seq<int>,
    lists: seq<seq<Row>>, items: set<FreqDistribItem>)
    reads result, arrived, items
    requires |sizes| == |corpusSizes| == |lists| == |arrived|
  {
    && result !in arrived
    && NoSharing(result.freqs) && result.Items() <= items
    && (forall k | i <= k < |arrived| :: NoSharing(arrived[k].freqs) && arrived[k].Items() !! result.Items())
    && (forall k, l | i <= k < l < |arrived| :: arrived[k].Items() !! arrived[l].Items())
    && (forall k | i <= k < |arrived| ::
          && arrived[k].concSize == sizes[k] && arrived[k].corpusSize == corpusSizes[k]
          && arrived[k].Items() <= items && RowsOf(arrived[k].freqs) == lists[k])
  }

  /** Untouched items keep their rows. */
  twostate lemma RowsKept(items: seq<FreqDistribItem>)
    requires forall j | 0 <= j < |items| :: unchanged(items[j])
    ensures RowsOf(items) == old(RowsOf(items))
  {
  }

  method MergeNext(
    result: FreqDistrib, arrived: seq<FreqDistrib>, i: nat, ghost sizes: seq<int>, ghost corpusSizes: seq<int>,
    ghost lists: seq<seq<Row>>, ghost items: set<FreqDistribItem>)
    requires i < |arrived| == |lists| == |sizes| == |corpusSizes|
    requires Pending(result, arrived, i, sizes, corpusSizes, lists, items)
    modifies result, items
    ensures Pending(result, arrived, i + 1, sizes, corpusSizes, lists, items)
    ensures RowsOf(result.freqs) == Merge(old(RowsOf(result.freqs)), lists[i])
    ensures result.concSize == old(result.concSize) + sizes[i]
    ensures result.corpusSize == corpusSizes[i] && result.examplesQueryTpl == ""
  {
    assert forall x | x in arrived[i].freqs :: x in arrived[i].Items() && x !in result.Items();
    ghost var touched := result.Items() + arrived[i].Items();
    assert forall k | i < k < |arrived| :: arrived[k].Items() !! touched;
    result.MergeWith(arrived[i]);
    forall k | i < k < |arrived| ensures RowsOf(arrived[k].freqs) == lists[k] {
      assert forall x | x in arrived[k].freqs :: x in arrived[k].Items() && x !in touched;
      RowsKept(arrived[k].freqs);
    }
  }

  method SortAndCut(result: FreqDistrib, maxItems: nat)
    modifies result`freqs
    ensures RowsOf(result.freqs) ==
            Cut(SortStable(old(RowsOf(result.freqs))), if maxItems == 0 then 100 else maxItems)
  {
    var cut := if maxItems == 0 then 100 else maxItems;
    var sorted := SortItems(result.freqs);
    result.freqs := if |sorted| > cut then sorted[..cut] else sorted;
  }

  /** What the results hold when they arrive, each in items of its own. */
  ghost predicate Arrived(
    arrived: seq<FreqDistrib>, sizes: seq<int>, corpusSizes: seq<int>, lists: seq<seq<Row>>)
    reads arrived, ItemsOf(arrived)
  {
    && |sizes| == |corpusSizes| == |lists| == |arrived|
    && (forall k | 0 <= k < |arrived| ::
          && arrived[k].concSize == sizes[k] && arrived[k].corpusSize == corpusSizes[k]
          && arrived[k].Items() <= ItemsOf(arrived)
          && RowsOf(arrived[k].freqs) == lists[k] && NoSharing(arrived[k].freqs))
    && forall k, l | 0 <= k < l < |arrived| :: arrived[k].Items() !! arrived[l].Items()
  }

  lemma FirstNext(sizes: seq<int>, lists: seq<seq<Row>>, i: nat)
    requires i < |sizes| == |lists|
    ensures Sum(sizes[..i + 1]) == Sum(sizes[..i]) + sizes[i]
    ensures MergeAll(lists[..i + 1]) == Merge(MergeAll(lists[..i]), lists[i])
  {
    assert lists[..i + 1][..i] == lists[..i];
    assert sizes[..i + 1][..i] == sizes[..i];
  }

  /** Merges the decoded worker results in their order of arrival. The corpus size is that of the last. */
  method MergeArrived(
    arrived: seq<FreqDistrib>, ghost sizes: seq<int>, ghost corpusSizes: seq<int>, ghost lists: seq<seq<Row>>)
    returns (result: FreqDistrib)
    requires Arrived(arrived, sizes, corpusSizes, lists)
    modifies ItemsOf(arrived)
    ensures fresh(result)
    ensures RowsOf(result.freqs) == MergeAll(lists) && result.concSize == Sum(sizes)
    ensures result.corpusSize == if arrived == [] then 0 else corpusSizes[|arrived| - 1]
    ensures result.examplesQueryTpl == ""
  {
    result := new FreqDistrib();
    ghost var items := ItemsOf(arrived);
    for i := 0 to |arrived|
      invariant fresh(result) && Pending(result, arrived, i, sizes, corpusSizes, lists, items)
      invariant RowsOf(result.freqs) == MergeAll(lists[..i])
      invariant result.concSize == Sum(sizes[..i])
      invariant result.corpusSize == if i == 0 then 0 else corpusSizes[i - 1]
      invariant result.examplesQueryTpl == ""
    {
      FirstNext(sizes, lists, i);
      MergeNext(result, arrived, i, sizes, corpusSizes, lists, items);
    }
    assert lists[..|lists|] == lists && sizes[..|sizes|] == sizes;
  }

  /** What the handler answers: the merged list or the first error. Nothing can be cut at a negative limit. */
  datatype Response = Merged(result: FreqDistrib) | ErrorResponse(code: int) | Panicked

  /** `errs`: the errors of failed publications and failed workers, in the order in which they are noticed.
      A failed worker's result is merged as an empty list before the error is reported. */
  method CollectParallel(
    arrived: seq<FreqDistrib>, errs: seq<int>, maxItems: int,
    ghost sizes: seq<int>, ghost corpusSizes: seq<int>, ghost lists: seq<seq<Row>>)
    returns (response: Response)
    requires Arrived(arrived, sizes, corpusSizes, lists)
    modifies ItemsOf(arrived)
    ensures errs != [] ==> response == ErrorResponse(errs[0])
    ensures errs == [] && maxItems < 0 ==> response == Panicked
    ensures errs == [] && maxItems >= 0 ==>
              && response.Merged? && fresh(response.result) && response.result.concSize == Sum(sizes)
              && response.result.corpusSize == (if arrived == [] then 0 else corpusSizes[|arrived| - 1])
              && response.result.examplesQueryTpl == ""
              && RowsOf(response.result.freqs) ==
                 Cut(SortStable(MergeAll(lists)), if maxItems == 0 then 100 else maxItems)
  {
    var result := MergeArrived(arrived, sizes, corpusSizes, lists);
    if errs != [] {
      return ErrorResponse(errs[0]);
    }
    if maxItems < 0 {
      return Panicked;
    }
    SortAndCut(result, maxItems);
    return Merged(result);
  }
}
