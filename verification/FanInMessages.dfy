/** What the messages of the fan-in hold when they are sent, and what is read of them. */
module FanInMessages {
  import opened FanIn
  import opened FreqRows
  import opened Permutations
  import opened Wrappers

  // ----- what a complete run has sent -----

  /** When the channel closes, exactly one message was sent for each chunk. */
  lemma OneMessagePerChunk(lists: seq<seq<Row>>, s: State)
    requires Reachable(lists, s) && s.closed
    ensures multiset(Numbers(s.messages)) == multiset(seq(|lists|, i => i + 1))
    ensures |s.messages| == |lists|
  {
    ReachableIsInv(lists, s);
    var all: seq<nat> := seq(|lists|, i => i + 1);
    forall x: nat ensures x in Numbers(s.messages) <==> x in all {
      if 1 <= x <= |lists| {
        assert all[x - 1] == x;
      }
    }
    SameElements(Numbers(s.messages), all);
    assert |Numbers(s.messages)| == |multiset(Numbers(s.messages))| == |multiset(all)| == |all|;
  }

  lemma {:induction false} TotalOfPrefix(rows: seq<Row>, j: nat, w: Word)
    requires NonNegative(rows) && j <= |rows|
    ensures 0 <= Total(rows[..j], w) <= Total(rows, w)
    decreases |rows| + j
  {
    if j == |rows| {
      assert rows[..j] == rows;
      if j > 0 {
        TotalOfPrefix(rows[..j - 1], j - 1, w);
      }
    } else {
      var n := |rows| - 1;
      assert rows[..n][..j] == rows[..j];
      TotalOfPrefix(rows[..n], j, w);
    }
  }

  /** What `picks` and some rows of one more list count is at most what all lists count. */
  lemma PartsAtMostAll(lists: seq<seq<Row>>, picks: seq<nat>, c: nat, j: nat, i: nat, w: Word)
    requires c < |lists| && InRange(lists, picks) && NoRepetition(picks + [c]) && i in picks && j <= |lists[c]|
    requires forall k | 0 <= k < |lists| :: NonNegative(lists[k])
    ensures i < |lists|
    ensures var parts := TotalOfAll(Picked(lists, picks), w) + Total(lists[c][..j], w);
            Total(lists[i], w) <= parts <= TotalOfAll(lists, w)
  {
    var count := (l: seq<Row>) => Total(l, w);
    forall k | 0 <= k < |lists| ensures count(lists[k]) >= 0 {
      TotalOfPrefix(lists[k], |lists[k]|, w);
    }
    var more := picks + [c];
    assert more[..|picks|] == picks;
    assert NoRepetition(picks) by {
      assert forall k | 0 <= k < |picks| :: picks[k] == more[k];
    }
    assert Picked(lists, picks + [c])[..|picks|] == Picked(lists, picks);
    TotalOfPrefix(lists[c], j, w);
    PickedBounds(count, lists, picks, i, []);
    PickedBounds(count, lists, picks + [c], i, []);
  }

  /** The rows of a merge that is going on are those of a chunk that has not merged yet. */
  ghost predicate PartialOk(lists: seq<seq<Row>>, order: seq<nat>, partial: seq<Row>) {
    partial == [] || exists c: nat :: IsBegun(lists, order, partial, c)
  }

  predicate IsBegun(lists: seq<seq<Row>>, order: seq<nat>, partial: seq<Row>, c: nat) {
    c < |lists| && c !in order && partial <= lists[c]
  }

  lemma PartialIsOk(lists: seq<seq<Row>>, s: State)
    requires Sized(lists, s) && OrderOk(s.order, s.phases) && HolderOk(lists, s.holder, s.phases)
    ensures PartialOk(lists, s.order, Partial(lists, s.holder, s.phases))
  {
    if s.holder.Some? {
      HolderIsMerging(lists, s.holder, s.phases);
      assert IsBegun(lists, s.order, Partial(lists, s.holder, s.phases), s.holder.value);
    }
  }

  lemma PrefixOk(lists: seq<seq<Row>>, order: seq<nat>, partial: seq<Row>, k: nat)
    requires InRange(lists, order) && NoRepetition(order) && PartialOk(lists, order, partial) && k <= |order|
    ensures InRange(lists, order[..k]) && NoRepetition(order[..k])
    ensures PartialOk(lists, order[..k], Next(lists, order, partial, k))
  {
    if k < |order| {
      assert IsBegun(lists, order[..k], lists[order[k]], order[k]);
    } else {
      assert order[..k] == order;
    }
  }

  /** What the merged chunks and some rows of one more count together. */
  lemma PartsBound(lists: seq<seq<Row>>, picks: seq<nat>, next: seq<Row>, j: nat, i: nat, w: Word)
    requires InRange(lists, picks) && NoRepetition(picks) && PartialOk(lists, picks, next)
    requires i in picks && j <= |next| && forall k | 0 <= k < |lists| :: NonNegative(lists[k])
    ensures i < |lists|
    ensures var parts := TotalOfAll(Picked(lists, picks), w) + Total(next[..j], w);
            Total(lists[i], w) <= parts <= TotalOfAll(lists, w)
  {
    if next == [] {
      WholeAtMostAll(lists, picks, i, w);
    } else {
      var c: nat :| IsBegun(lists, picks, next, c);
      assert next[..j] == lists[c][..j];
      PartsAtMostAll(lists, picks, c, j, i, w);
    }
  }

  lemma SnapshotBounds(
    lists: seq<seq<Row>>, order: seq<nat>, partial: seq<Row>, i: nat, entries: seq<Row>, w: Word)
    requires InRange(lists, order) && NoRepetition(order) && PartialOk(lists, order, partial)
    requires i < |lists| && Snapshot(lists, order, partial, i, entries)
    requires forall j | 0 <= j < |lists| :: NonNegative(lists[j])
    ensures Total(lists[i], w) <= Total(entries, w) <= TotalOfAll(lists, w)
  {
    var k: nat, j: nat :| IsSnapshot(lists, order, partial, i, entries, k, j);
    var next := Next(lists, order, partial, k);
    PrefixOk(lists, order, partial, k);
    SnapshotTotal(lists, order[..k], next[..j], w);
    PartsBound(lists, order[..k], next, j, i, w);
  }

  lemma SnapshotTotal(lists: seq<seq<Row>>, picks: seq<nat>, rest: seq<Row>, w: Word)
    requires InRange(lists, picks)
    ensures Total(Merge(MergeAll(Picked(lists, picks)), rest), w) ==
            TotalOfAll(Picked(lists, picks), w) + Total(rest, w)
  {
    MergeAddsTotals(MergeAll(Picked(lists, picks)), rest, w);
    MergeAllAddsTotals(Picked(lists, picks), w);
  }

  lemma WholeAtMostAll(lists: seq<seq<Row>>, picks: seq<nat>, i: nat, w: Word)
    requires InRange(lists, picks) && NoRepetition(picks) && i in picks
    requires forall k | 0 <= k < |lists| :: NonNegative(lists[k])
    ensures i < |lists| && Total(lists[i], w) <= TotalOfAll(Picked(lists, picks), w) <= TotalOfAll(lists, w)
  {
    var count := (l: seq<Row>) => Total(l, w);
    forall k | 0 <= k < |lists| ensures count(lists[k]) >= 0 {
      TotalOfPrefix(lists[k], |lists[k]|, w);
    }
    PickedBounds(count, lists, picks, i, []);
  }

  lemma MessageIsSnapshot(lists: seq<seq<Row>>, s: State, k: nat)
    requires Sized(lists, s) && InRange(lists, s.order) && KindsOk(s.messages, s.phases)
    requires SnapshotsOk(lists, s.order, Partial(lists, s.holder, s.phases), s.phases, s.messages)
    requires k < |s.messages| && s.messages[k].Entries?
    ensures 1 <= s.messages[k].chunkNum <= |lists|
    ensures var m := s.messages[k];
            Snapshot(lists, s.order, Partial(lists, s.holder, s.phases), m.chunkNum - 1, m.entries)
  {
    assert MessageOk(lists, s.order, Partial(lists, s.holder, s.phases), s.messages[k]);
  }

  lemma ReachableMessage(lists: seq<seq<Row>>, s: State, k: nat)
    requires Reachable(lists, s) && k < |s.messages| && s.messages[k].Entries?
    ensures Sized(lists, s) && InRange(lists, s.order) && 1 <= s.messages[k].chunkNum <= |lists|
    ensures var m := s.messages[k];
            Snapshot(lists, s.order, Partial(lists, s.holder, s.phases), m.chunkNum - 1, m.entries)
  {
    ReachableIsInv(lists, s);
    MessageIsSnapshot(lists, s, k);
  }

  lemma MessageBounds(lists: seq<seq<Row>>, s: State, k: nat, w: Word)
    requires Sized(lists, s) && InRange(lists, s.order) && KindsOk(s.messages, s.phases)
    requires SnapshotsOk(lists, s.order, Partial(lists, s.holder, s.phases), s.phases, s.messages)
    requires OrderOk(s.order, s.phases) && HolderOk(lists, s.holder, s.phases)
    requires k < |s.messages| && s.messages[k].Entries?
    requires forall i | 0 <= i < |lists| :: NonNegative(lists[i])
    ensures 1 <= s.messages[k].chunkNum <= |lists|
    ensures var m := s.messages[k];
            Total(lists[m.chunkNum - 1], w) <= Total(m.entries, w) <= TotalOfAll(lists, w)
  {
    var m, partial := s.messages[k], Partial(lists, s.holder, s.phases);
    MessageIsSnapshot(lists, s, k);
    PartialIsOk(lists, s);
    SnapshotBounds(lists, s.order, partial, m.chunkNum - 1, m.entries, w);
  }

  /** A message with entries contains at least what its own chunk counted, and no more than what all
      chunks counted. */
  lemma MessageCoversItsChunk(lists: seq<seq<Row>>, s: State, k: nat, w: Word)
    requires Reachable(lists, s) && k < |s.messages| && s.messages[k].Entries?
    requires forall i | 0 <= i < |lists| :: NonNegative(lists[i])
    ensures 1 <= s.messages[k].chunkNum <= |lists|
    ensures var m := s.messages[k];
            Total(lists[m.chunkNum - 1], w) <= Total(m.entries, w) <= TotalOfAll(lists, w)
  {
    ReachableIsInv(lists, s);
    MessageBounds(lists, s, k, w);
  }

  /** The lists of the chunks that succeeded. */
  function Successes(lists: seq<seq<Row>>, s: State): (r: seq<seq<Row>>)
    requires |s.phases| == |lists|
    ensures |r| == |lists|
    ensures forall i | 0 <= i < |lists| :: r[i] == if s.phases[i] == Sent(true) then lists[i] else []
  {
    seq(|lists|, i requires 0 <= i < |lists| => if s.phases[i] == Sent(true) then lists[i] else [])
  }

  lemma NobodyHolds(lists: seq<seq<Row>>, s: State)
    requires Sized(lists, s) && HolderOk(lists, s.holder, s.phases) && AllSent(s.phases)
    ensures s.holder == None && Partial(lists, s.holder, s.phases) == []
  {
    if s.holder.Some? {
      HolderIsMerging(lists, s.holder, s.phases);
    }
  }

  /** The chunk that merged last has sent the result. */
  lemma LastHasSent(s: State) returns (k: nat)
    requires AllSent(s.phases) && LastSeesAll(s) && s.holder == None && s.order != []
    ensures k < |s.messages| && s.messages[k].Entries?
    ensures s.messages[k].entries == s.result && s.messages[k].concSize == s.concSize
  {
    var last := s.order[|s.order| - 1];
    assert s.phases[last].Sent?;
    k :| 0 <= k < |s.messages| && s.messages[k] == Entries(last + 1, s.result, s.concSize);
  }

  /** After the close some message is the merge of all merged chunks. */
  lemma FinalMessage(lists: seq<seq<Row>>, s: State) returns (k: nat)
    requires Inv(lists, s) && s.closed && s.order != []
    ensures k < |s.messages| && s.messages[k].Entries?
    ensures s.messages[k].entries == MergeAll(Picked(lists, s.order)) == s.result
    ensures s.messages[k].concSize == s.concSize && s.holder == None
  {
    NobodyHolds(lists, s);
    k := LastHasSent(s);
  }

  lemma TotalOfMerged(lists: seq<seq<Row>>, s: State, w: Word)
    requires Sized(lists, s) && OrderOk(s.order, s.phases) && InRange(lists, s.order) && AllSent(s.phases)
    ensures Total(MergeAll(Picked(lists, s.order)), w) == TotalOfAll(Successes(lists, s), w)
  {
    assert Successes(lists, s) == Masked(lists, s.order, []);
    MergeAllAddsTotals(Picked(lists, s.order), w);
    PickedIsMasked((l: seq<Row>) => Total(l, w), lists, s.order, []);
  }

  /** The sizes of the chunks that succeeded. */
  function SuccessSizes(s: State): (r: seq<int>)
    requires |s.phases| == |s.sizes|
    ensures |r| == |s.sizes|
    ensures forall i | 0 <= i < |s.sizes| :: r[i] == if s.phases[i] == Sent(true) then s.sizes[i] else 0
  {
    seq(|s.sizes|, i requires 0 <= i < |s.sizes| => if s.phases[i] == Sent(true) then s.sizes[i] else 0)
  }

  lemma SizeOfMerged(lists: seq<seq<Row>>, s: State)
    requires Sized(lists, s) && OrderOk(s.order, s.phases) && AllSent(s.phases) && SizesOk(s) && s.holder == None
    ensures s.concSize == SumBy(Id, SuccessSizes(s))
  {
    assert SuccessSizes(s) == Masked(s.sizes, s.order, 0);
    PickedIsMasked(Id, s.sizes, s.order, 0);
  }

  /** One of the messages of a run in which a chunk succeeded is the merge of all chunks that did, with
      their sizes added up. */
  lemma SomeMessageIsComplete(lists: seq<seq<Row>>, s: State) returns (k: nat)
    requires Reachable(lists, s) && s.closed
    requires exists i :: 0 <= i < |s.phases| && s.phases[i] == Sent(true)
    ensures Sized(lists, s)
    ensures k < |s.messages| && s.messages[k].Entries? && s.messages[k].entries == s.result
    ensures forall w :: Total(s.messages[k].entries, w) == TotalOfAll(Successes(lists, s), w)
    ensures s.messages[k].concSize == SumBy(Id, SuccessSizes(s))
  {
    ReachableIsInv(lists, s);
    ReachableSizes(lists, s);
    var i: nat :| 0 <= i < |s.phases| && s.phases[i] == Sent(true);
    assert i in s.order;
    k := FinalMessage(lists, s);
    SizeOfMerged(lists, s);
    forall w ensures Total(s.messages[k].entries, w) == TotalOfAll(Successes(lists, s), w) {
      TotalOfMerged(lists, s, w);
    }
  }

  lemma AllMerged(lists: seq<seq<Row>>, s: State)
    requires Inv(lists, s) && forall i | 0 <= i < |s.phases| :: s.phases[i] == Sent(true)
    ensures multiset(Picked(lists, s.order)) == multiset(lists)
    ensures lists != [] ==> s.order != []
  {
    assert forall i | 0 <= i < |lists| :: i in s.order;
    AllPicked(lists, s.order, []);
  }

  /** If every chunk succeeds, that message has exactly the values and the frequencies of the merge of
      all lists. */
  lemma SomeMessageIsTheWholeMerge(lists: seq<seq<Row>>, s: State) returns (k: nat)
    requires Reachable(lists, s) && s.closed && lists != []
    requires forall i | 0 <= i < |s.phases| :: s.phases[i] == Sent(true)
    ensures k < |s.messages| && s.messages[k].Entries? && s.messages[k].entries == s.result
    ensures forall w ::
              && Total(s.messages[k].entries, w) == Total(MergeAll(lists), w)
              && (Has(s.messages[k].entries, w) <==> Has(MergeAll(lists), w))
  {
    ReachableIsInv(lists, s);
    AllMerged(lists, s);
    k := FinalMessage(lists, s);
    forall w
      ensures Total(s.messages[k].entries, w) == Total(MergeAll(lists), w)
      ensures Has(s.messages[k].entries, w) <==> Has(MergeAll(lists), w)
    {
      MergeAllOrderIndependent(lists, Picked(lists, s.order), w);
    }
  }

  /** Once a request or its answer failed, the chunk never merges. */
  lemma {:induction false} FailureStays(
    lists: seq<seq<Row>>, s: State, i: nat, steps: seq<Step>, t: State)
    requires Sized(lists, s) && Leads(lists, s, steps, t)
    requires i < |s.phases| && (s.phases[i] == Failed || s.phases[i] == Sent(false))
    ensures |t.phases| == |s.phases| && (t.phases[i] == Failed || t.phases[i] == Sent(false))
    decreases |steps|
  {
    if steps != [] {
      FailureStays(lists, After(lists, s, steps[0]), i, steps[1..], t);
    }
  }

  lemma FailureMessage(s: State, i: nat)
    requires NumbersOk(s.messages, s.phases) && KindsOk(s.messages, s.phases) && OrderOk(s.order, s.phases)
    requires i < |s.phases| && s.phases[i] == Sent(false)
    ensures Failure(i + 1) in s.messages && i !in s.order
  {
    assert i + 1 in Numbers(s.messages);
    var k :| 0 <= k < |s.messages| && Numbers(s.messages)[k] == i + 1;
    assert s.messages[k] == Failure(i + 1);
  }

  lemma FailureAtClose(lists: seq<seq<Row>>, t: State, i: nat)
    requires Inv(lists, t) && t.closed && i < |t.phases| && (t.phases[i] == Failed || t.phases[i] == Sent(false))
    ensures Failure(i + 1) in t.messages && i !in t.order
  {
    FailureMessage(t, i);
  }

  lemma FailedIsReported(lists: seq<seq<Row>>, s: State, i: nat, steps: seq<Step>, t: State)
    requires Inv(lists, s) && i < |s.phases| && s.phases[i] == Failed && Leads(lists, s, steps, t) && t.closed
    ensures Failure(i + 1) in t.messages && i !in t.order
  {
    LeadsKeepsInv(lists, s, steps, t);
    FailureStays(lists, s, i, steps, t);
    FailureAtClose(lists, t, i);
  }

  /** A chunk whose request or answer failed is reported as a failure by the time the channel is closed, and
      its rows are not in the result. */
  lemma FailureIsReported(lists: seq<seq<Row>>, s: State, step: Step, steps: seq<Step>, t: State)
    requires Inv(lists, s) && Enabled(lists, s, step) && (step.PublishFails? || step.AnswerFails?)
    requires Leads(lists, After(lists, s, step), steps, t) && t.closed
    ensures Failure(step.chunk + 1) in t.messages && step.chunk !in t.order
  {
    KeepsInv(lists, s, step);
    FailedIsReported(lists, After(lists, s, step), step.chunk, steps, t);
  }

  // ----- the shared rows -----

  lemma {:induction false} MergeAllGrows(lists: seq<seq<Row>>, k: nat)
    requires k <= |lists| && forall i | 0 <= i < |lists| :: NonNegative(lists[i])
    ensures Grown(MergeAll(lists[..k]), MergeAll(lists))
  {
    if k == |lists| {
      assert lists[..k] == lists;
    } else {
      var n := |lists| - 1;
      assert lists[..n][..k] == lists[..k];
      MergeAllGrows(lists[..n], k);
      MergeGrows(MergeAll(lists[..n]), lists[n]);
    }
  }

  lemma {:induction false} PartialGrows(rows: seq<Row>, other: seq<Row>, j: nat)
    requires j <= |other| && NonNegative(other)
    ensures Grown(Merge(rows, other[..j]), Merge(rows, other))
  {
    if j == |other| {
      assert other[..j] == other;
    } else {
      var n := |other| - 1;
      assert other[..n][..j] == other[..j];
      PartialGrows(rows, other[..n], j);
    }
  }

  lemma GrownTwice(a: seq<Row>, b: seq<Row>, c: seq<Row>)
    requires Grown(a, b) && Grown(b, c)
    ensures Grown(a, c)
  {
  }

  /** The end of a merge has grown when the merges behind it end. */
  lemma EndGrows(picked: seq<seq<Row>>, partial: seq<Row>, k: nat)
    requires k <= |picked| && NonNegative(partial) && forall c | 0 <= c < |picked| :: NonNegative(picked[c])
    ensures Grown(MergeAll(picked[..k]), Merge(MergeAll(picked), partial))
  {
    MergeAllGrows(picked, k);
    MergeGrows(MergeAll(picked), partial);
    GrownTwice(MergeAll(picked[..k]), MergeAll(picked), Merge(MergeAll(picked), partial));
  }

  /** A snapshot within a merge has grown when this merge ends. */
  lemma PartGrows(picked: seq<seq<Row>>, partial: seq<Row>, k: nat, j: nat)
    requires k < |picked| && j <= |picked[k]|
    requires NonNegative(partial) && forall c | 0 <= c < |picked| :: NonNegative(picked[c])
    ensures Grown(Merge(MergeAll(picked[..k]), picked[k][..j]), Merge(MergeAll(picked), partial))
  {
    PartialGrows(MergeAll(picked[..k]), picked[k], j);
    assert picked[..k + 1][..k] == picked[..k];
    EndGrows(picked, partial, k + 1);
    GrownTwice(
      Merge(MergeAll(picked[..k]), picked[k][..j]), MergeAll(picked[..k + 1]), Merge(MergeAll(picked), partial));
  }

  lemma SnapshotGrows(
    lists: seq<seq<Row>>, order: seq<nat>, partial: seq<Row>, i: nat, entries: seq<Row>, k: nat, j: nat)
    requires InRange(lists, order) && IsSnapshot(lists, order, partial, i, entries, k, j)
    requires NonNegative(partial) && forall c | 0 <= c < |lists| :: NonNegative(lists[c])
    ensures Grown(entries, Merge(MergeAll(Picked(lists, order)), partial))
  {
    var picked := Picked(lists, order);
    assert picked[..k] == Picked(lists, order[..k]);
    if k < |order| {
      PartGrows(picked, partial, k, j);
    } else {
      assert picked[..k] == picked;
      PartialGrows(MergeAll(picked), partial, j);
    }
  }

  lemma PartialNonNegative(lists: seq<seq<Row>>, s: State)
    requires Sized(lists, s) && OrderOk(s.order, s.phases) && HolderOk(lists, s.holder, s.phases)
    requires forall c | 0 <= c < |lists| :: NonNegative(lists[c])
    ensures NonNegative(Partial(lists, s.holder, s.phases))
  {
    PartialIsOk(lists, s);
  }

  lemma MessageGrows(lists: seq<seq<Row>>, s: State, k: nat)
    requires Sized(lists, s) && InRange(lists, s.order) && KindsOk(s.messages, s.phases)
    requires SnapshotsOk(lists, s.order, Partial(lists, s.holder, s.phases), s.phases, s.messages)
    requires k < |s.messages| && s.messages[k].Entries? && NonNegative(Partial(lists, s.holder, s.phases))
    requires forall i | 0 <= i < |lists| :: NonNegative(lists[i])
    ensures Grown(s.messages[k].entries, Merge(MergeAll(Picked(lists, s.order)), Partial(lists, s.holder, s.phases)))
  {
    MessageIsSnapshot(lists, s, k);
    var i, entries := s.messages[k].chunkNum - 1, s.messages[k].entries;
    var n: nat, j: nat :| IsSnapshot(lists, s.order, Partial(lists, s.holder, s.phases), i, entries, n, j);
    SnapshotGrows(lists, s.order, Partial(lists, s.holder, s.phases), i, entries, n, j);
  }

  /** A message shares its rows with the result, and later merges update them. Whenever it is read, it
      has the same words with the same bases in the same places, with frequencies that only grew. */
  lemma MessagesGrow(lists: seq<seq<Row>>, s: State, k: nat)
    requires Reachable(lists, s) && k < |s.messages| && s.messages[k].Entries?
    requires forall i | 0 <= i < |lists| :: NonNegative(lists[i])
    ensures Grown(s.messages[k].entries, s.result)
  {
    ReachableIsInv(lists, s);
    PartialNonNegative(lists, s);
    MessageGrows(lists, s, k);
  }

  /** What a reader of the message sees at state `s`: the rows that its slice covers. */
  function Received(s: State, m: Message): seq<Row>
    requires m.Entries? && |m.entries| <= |s.result|
  {
    s.result[..|m.entries|]
  }

  lemma {:induction false} GrownTotal(a: seq<Row>, b: seq<Row>, w: Word)
    requires Grown(a, b) && |a| == |b|
    ensures Total(a, w) <= Total(b, w)
  {
    if a != [] {
      GrownTotal(a[..|a| - 1], b[..|b| - 1], w);
    }
  }

  lemma SameWords(a: seq<Row>, b: seq<Row>, w: Word)
    requires Grown(a, b)
    ensures Has(a, w) <==> Has(b[..|a|], w)
  {
    assert forall i | 0 <= i < |a| :: b[..|a|][i].word == a[i].word;
  }

  lemma {:induction false} MergeAllNonNegative(lists: seq<seq<Row>>)
    requires forall i | 0 <= i < |lists| :: NonNegative(lists[i])
    ensures NonNegative(MergeAll(lists))
  {
    if lists != [] {
      var n := |lists| - 1;
      MergeAllNonNegative(lists[..n]);
      MergeGrows(MergeAll(lists[..n]), lists[n]);
    }
  }

  /** The result counts at least what chunk `i` counts once it is merged, and at most what all count. */
  lemma ResultBounds(lists: seq<seq<Row>>, s: State, i: nat, w: Word)
    requires Sized(lists, s) && OrderOk(s.order, s.phases) && HolderOk(lists, s.holder, s.phases)
    requires InRange(lists, s.order) && i in s.order
    requires s.result == Merge(MergeAll(Picked(lists, s.order)), Partial(lists, s.holder, s.phases))
    requires forall j | 0 <= j < |lists| :: NonNegative(lists[j])
    ensures NonNegative(s.result) && Total(s.result, w) <= TotalOfAll(lists, w)
  {
    var partial := Partial(lists, s.holder, s.phases);
    PartialIsOk(lists, s);
    PartialNonNegative(lists, s);
    MergeAllNonNegative(Picked(lists, s.order));
    MergeGrows(MergeAll(Picked(lists, s.order)), partial);
    SnapshotTotal(lists, s.order, partial, w);
    assert partial[..|partial|] == partial;
    PartsBound(lists, s.order, partial, |partial|, i, w);
  }

  lemma SenderHasMerged(lists: seq<seq<Row>>, s: State, k: nat)
    requires Sized(lists, s) && OrderOk(s.order, s.phases) && KindsOk(s.messages, s.phases)
    requires k < |s.messages| && s.messages[k].Entries?
    ensures 1 <= s.messages[k].chunkNum <= |lists| && s.messages[k].chunkNum - 1 in s.order
  {
    var i: nat := s.messages[k].chunkNum - 1;
    assert s.phases[i] == Sent(true);
    assert i in s.order;
  }

  lemma ResultBoundsOf(lists: seq<seq<Row>>, s: State, k: nat, w: Word)
    requires Sized(lists, s) && OrderOk(s.order, s.phases) && HolderOk(lists, s.holder, s.phases)
    requires InRange(lists, s.order) && KindsOk(s.messages, s.phases)
    requires s.result == Merge(MergeAll(Picked(lists, s.order)), Partial(lists, s.holder, s.phases))
    requires k < |s.messages| && s.messages[k].Entries?
    requires forall j | 0 <= j < |lists| :: NonNegative(lists[j])
    ensures NonNegative(s.result) && Total(s.result, w) <= TotalOfAll(lists, w)
  {
    SenderHasMerged(lists, s, k);
    ResultBounds(lists, s, s.messages[k].chunkNum - 1, w);
  }

  lemma ResultBoundsFor(lists: seq<seq<Row>>, s: State, k: nat, w: Word)
    requires Reachable(lists, s) && k < |s.messages| && s.messages[k].Entries?
    requires forall i | 0 <= i < |lists| :: NonNegative(lists[i])
    ensures NonNegative(s.result) && Total(s.result, w) <= TotalOfAll(lists, w)
  {
    ReachableIsInv(lists, s);
    ResultBoundsOf(lists, s, k, w);
  }

  /** Whenever a message is read, what is read counts at least what its own chunk counted, and at most what
      all chunks counted. */
  lemma ReceivedCoversItsChunk(lists: seq<seq<Row>>, s: State, k: nat, w: Word)
    requires Reachable(lists, s) && k < |s.messages| && s.messages[k].Entries?
    requires forall i | 0 <= i < |lists| :: NonNegative(lists[i])
    ensures 1 <= s.messages[k].chunkNum <= |lists| && |s.messages[k].entries| <= |s.result|
    ensures var m := s.messages[k];
            Total(lists[m.chunkNum - 1], w) <= Total(Received(s, m), w) <= TotalOfAll(lists, w)
  {
    MessagesGrow(lists, s, k);
    MessageCoversItsChunk(lists, s, k, w);
    ResultBoundsFor(lists, s, k, w);
    GrownTotal(s.messages[k].entries, Received(s, s.messages[k]), w);
    TotalOfPrefix(s.result, |s.messages[k].entries|, w);
  }

  lemma SnapshotNamesOwn(
    lists: seq<seq<Row>>, order: seq<nat>, partial: seq<Row>, i: nat, entries: seq<Row>, w: Word)
    requires InRange(lists, order) && i < |lists| && Snapshot(lists, order, partial, i, entries)
    requires Has(lists[i], w)
    ensures Has(entries, w)
  {
    var k: nat, j: nat :| IsSnapshot(lists, order, partial, i, entries, k, j);
    var picked := Picked(lists, order[..k]);
    var x :| 0 <= x < k && order[..k][x] == i;
    assert Has(picked[x], w);
    MergeAllWords(picked, w);
    MergeUnitesWords(MergeAll(picked), Next(lists, order, partial, k)[..j], w);
  }

  lemma MessageNamesOwn(lists: seq<seq<Row>>, s: State, k: nat, w: Word)
    requires Reachable(lists, s) && k < |s.messages| && s.messages[k].Entries?
    requires 1 <= s.messages[k].chunkNum <= |lists| && Has(lists[s.messages[k].chunkNum - 1], w)
    ensures Has(s.messages[k].entries, w)
  {
    ReachableMessage(lists, s, k);
    SnapshotNamesOwn(
      lists, s.order, Partial(lists, s.holder, s.phases), s.messages[k].chunkNum - 1, s.messages[k].entries, w);
  }

  // ----- the last message is read after every merge -----

  /** So many different numbers fit below a bound. */
  lemma {:induction false} AtMost(picks: seq<nat>, n: nat)
    requires NoRepetition(picks) && forall k | 0 <= k < |picks| :: 1 <= picks[k] <= n
    ensures |picks| <= n
    decreases n
  {
    if picks == [] {
    } else if n in picks {
      var j :| 0 <= j < |picks| && picks[j] == n;
      AtMost(picks[..j] + picks[j + 1..], n - 1);
    } else {
      assert 1 <= picks[0] <= n;
      AtMost(picks, n - 1);
    }
  }

  lemma AllMessagesAllSent(lists: seq<seq<Row>>, s: State)
    requires Inv(lists, s) && |s.messages| == |lists|
    ensures AllSent(s.phases)
  {
    var numbers := Numbers(s.messages);
    forall i | 0 <= i < |s.phases| ensures s.phases[i].Sent? {
      assert i + 1 in numbers by {
        if i + 1 !in numbers {
          AtMost(numbers + [i + 1], |lists|);
        }
      }
    }
  }

  /** Once there is a message for each chunk, nothing that follows changes the result: whoever reads the
      last message reads it as it is then. */
  lemma {:induction false} LastIsReadAfterAllMerges(
    lists: seq<seq<Row>>, s: State, steps: seq<Step>, t: State)
    requires Inv(lists, s) && |s.messages| == |lists| && Leads(lists, s, steps, t)
    ensures t.result == s.result && t.concSize == s.concSize && t.messages == s.messages
    decreases |steps|
  {
    if steps != [] {
      AllMessagesAllSent(lists, s);
      KeepsInv(lists, s, steps[0]);
      LastIsReadAfterAllMerges(lists, After(lists, s, steps[0]), steps[1..], t);
    }
  }

  // ----- every run comes to its end -----

  /** How many steps a chunk can still take. */
  function StepsLeft(rows: seq<Row>, p: Phase): int {
    match p
    case Starting => |rows| + 5
    case Waiting => |rows| + 4
    case Merging(done) => if done <= |rows| then |rows| - done + 3 else 3
    case Merged => 2
    case Ready(_, _) => 1
    case Failed => 1
    case Sent(_) => 0
  }

  function AllLeft(lists: seq<seq<Row>>, phases: seq<Phase>): (left: seq<int>)
    requires |lists| == |phases|
    ensures |left| == |lists| && forall i | 0 <= i < |left| :: left[i] == StepsLeft(lists[i], phases[i])
  {
    seq(|lists|, i requires 0 <= i < |lists| => StepsLeft(lists[i], phases[i]))
  }

  function Budget(lists: seq<seq<Row>>, s: State): int
    requires Sized(lists, s)
  {
    SumBy(Id, AllLeft(lists, s.phases)) + if s.closed then 0 else 1
  }

  lemma StepCosts(lists: seq<seq<Row>>, s: State, step: Step)
    requires Sized(lists, s) && Enabled(lists, s, step)
    ensures Budget(lists, After(lists, s, step)) < Budget(lists, s)
  {
    if step != CloseChannel {
      var i, t := step.chunk, After(lists, s, step);
      assert AllLeft(lists, t.phases) == AllLeft(lists, s.phases)[i := StepsLeft(lists[i], t.phases[i])];
      SumByUpdated(Id, AllLeft(lists, s.phases), i, StepsLeft(lists[i], t.phases[i]));
    }
  }

  lemma {:induction false} StepsAreBounded(lists: seq<seq<Row>>, s: State, steps: seq<Step>, t: State)
    requires Sized(lists, s) && Leads(lists, s, steps, t)
    ensures |steps| <= Budget(lists, s)
    decreases |steps|
  {
    if steps == [] {
      SumByNonNegative(Id, AllLeft(lists, s.phases));
    } else {
      StepCosts(lists, s, steps[0]);
      StepsAreBounded(lists, After(lists, s, steps[0]), steps[1..], t);
    }
  }

  function RowsOfAll(lists: seq<seq<Row>>): int {
    SumBy((l: seq<Row>) => |l|, lists)
  }

  lemma {:induction false} AllStarting(lists: seq<seq<Row>>)
    ensures SumBy(Id, AllLeft(lists, NotStarted(|lists|))) == RowsOfAll(lists) + 5 * |lists|
  {
    if lists != [] {
      var n := |lists| - 1;
      AllStarting(lists[..n]);
      assert AllLeft(lists, NotStarted(n + 1))[..n] == AllLeft(lists[..n], NotStarted(n));
    }
  }

  /** No run has more than one step per row, five per chunk and the closing one, and by `GoesOn` a run
      that cannot go on has closed the channel: provided that each query is answered and the messages
      are read, the stream ends. */
  lemma StreamEnds(lists: seq<seq<Row>>, steps: seq<Step>, s: State)
    requires |s.sizes| == |lists| && Leads(lists, Start(s.sizes), steps, s)
    ensures |steps| <= RowsOfAll(lists) + 5 * |lists| + 1
  {
    StepsAreBounded(lists, Start(s.sizes), steps, s);
    AllStarting(lists);
  }

  function NextStep(lists: seq<seq<Row>>, s: State, i: nat): Step
    requires Sized(lists, s) && i < |s.phases|
  {
    match s.phases[i]
    case Starting => Publish(i)
    case Waiting => Lock(i)
    case Merging(done) => if done < |lists[i]| then MergeRow(i) else Unlock(i)
    case Merged => ReadResult(i)
    case _ => Send(i)
  }

  /** While the channel is open something can be done, and it need not be a failure. */
  lemma GoesOn(lists: seq<seq<Row>>, s: State) returns (step: Step)
    requires Reachable(lists, s) && !s.closed
    ensures Sized(lists, s) && Enabled(lists, s, step)
    ensures !step.PublishFails? && !step.AnswerFails?
  {
    ReachableIsInv(lists, s);
    if s.holder.Some? {
      HolderIsMerging(lists, s.holder, s.phases);
      step := NextStep(lists, s, s.holder.value);
    } else {
      step := GoesOnUnlocked(lists, s);
    }
  }

  lemma GoesOnUnlocked(lists: seq<seq<Row>>, s: State) returns (step: Step)
    requires Sized(lists, s) && HolderOk(lists, s.holder, s.phases) && s.holder == None && !s.closed
    ensures Enabled(lists, s, step) && !step.PublishFails? && !step.AnswerFails?
  {
    if i: nat :| i < |s.phases| && !s.phases[i].Sent? {
      assert s.holder != Some(i);
      step := NextStep(lists, s, i);
    } else {
      step := CloseChannel;
    }
  }
}
