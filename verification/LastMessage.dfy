/** What the last message of the fan-in can be (corpus/handlers/ttchunked.go), and when it is complete. */
module LastMessage {
  import opened FanIn
  import opened FanInMessages
  import opened FreqRows
  import opened Permutations
  import opened Wrappers

  lemma {:induction false} LeadsOn(lists: seq<seq<Row>>, from: State, steps: seq<Step>, s: State, step: Step)
    requires Sized(lists, from) && Leads(lists, from, steps, s)
    ensures Sized(lists, s) && s.sizes == from.sizes
    ensures Enabled(lists, s, step) ==> Leads(lists, from, steps + [step], After(lists, s, step))
    decreases |steps|
  {
    if steps == [] {
      if Enabled(lists, s, step) {
        assert Leads(lists, After(lists, s, step), [], After(lists, s, step));
        assert [step][1..] == [];
      }
    } else {
      LeadsOn(lists, After(lists, from, steps[0]), steps[1..], s, step);
      assert (steps + [step])[1..] == steps[1..] + [step];
    }
  }

  lemma ReachableOn(lists: seq<seq<Row>>, s: State, step: Step) returns (t: State)
    requires Reachable(lists, s) && Sized(lists, s) && Enabled(lists, s, step)
    ensures Reachable(lists, t) && t == After(lists, s, step) && Sized(lists, t) && t.sizes == s.sizes
  {
    var steps :| Leads(lists, Start(s.sizes), steps, s);
    LeadsOn(lists, Start(s.sizes), steps, s, step);
    t := After(lists, s, step);
  }

  /** The holder of the lock merges the rest of its rows. */
  lemma {:induction false} MergeRest(lists: seq<seq<Row>>, s: State, i: nat) returns (t: State)
    requires Reachable(lists, s) && Sized(lists, s) && i < |lists|
    requires s.phases[i].Merging? && s.phases[i].done <= |lists[i]|
    ensures Reachable(lists, t) && Sized(lists, t) && t.phases == s.phases[i := Merging(|lists[i]|)]
    ensures t == s.(phases := t.phases, result := t.result)
    decreases |lists[i]| - s.phases[i].done
  {
    if s.phases[i].done == |lists[i]| {
      t := s;
    } else {
      t := ReachableOn(lists, s, MergeRow(i));
      t := MergeRest(lists, t, i);
    }
  }

  /** A chunk asks, is answered, merges and takes its snapshot; nobody else does anything meanwhile. */
  lemma RunToSnapshot(lists: seq<seq<Row>>, s: State, i: nat) returns (t: State)
    requires Reachable(lists, s) && Sized(lists, s) && i < |lists|
    requires s.phases[i] == Starting && s.holder == None && !s.closed
    ensures Reachable(lists, t) && Sized(lists, t) && t.sizes == s.sizes && t.holder == None && !t.closed
    ensures t.phases == s.phases[i := Ready(t.result, t.concSize)] && t.order == s.order + [i]
    ensures t.concSize == s.concSize + s.sizes[i]
  {
    t := ReachableOn(lists, s, Publish(i));
    t := ReachableOn(lists, t, Lock(i));
    t := MergeRest(lists, t, i);
    t := ReachableOn(lists, t, Unlock(i));
    t := ReachableOn(lists, t, ReadResult(i));
  }

  /** Chunk `i` is at phase `p`, the chunks below `k` have sent, the others have not started. */
  function Ahead(n: nat, i: nat, k: nat, p: Phase): (phases: seq<Phase>)
    ensures |phases| == n
    ensures forall j | 0 <= j < n :: phases[j] == if j == i then p else if j < k then Sent(true) else Starting
  {
    seq(n, j requires 0 <= j < n => if j == i then p else if j < k then Sent(true) else Starting)
  }

  /** The other chunks run to their end, one after the other, while chunk `i` waits with its snapshot. */
  lemma {:induction false} OthersOvertake(lists: seq<seq<Row>>, s: State, i: nat, k: nat, p: Phase)
    returns (t: State)
    requires Reachable(lists, s) && Sized(lists, s) && i < |lists| && k <= |lists|
    requires s.phases == Ahead(|lists|, i, k, p) && s.holder == None && !s.closed
    ensures Reachable(lists, t) && Sized(lists, t) && t.sizes == s.sizes && !t.closed
    ensures t.phases == Ahead(|lists|, i, |lists|, p)
    decreases |lists| - k
  {
    if k == |lists| {
      t := s;
    } else if k == i {
      assert s.phases == Ahead(|lists|, i, k + 1, p);
      t := OthersOvertake(lists, s, i, k + 1, p);
    } else {
      t := RunToSnapshot(lists, s, k);
      t := ReachableOn(lists, t, Send(k));
      assert t.phases == Ahead(|lists|, i, k + 1, p);
      t := OthersOvertake(lists, t, i, k + 1, p);
    }
  }

  /** The only merged chunk has its own list as the result. */
  lemma FirstResult(lists: seq<seq<Row>>, s: State, i: nat)
    requires Reachable(lists, s) && s.order == [i] && s.holder == None
    ensures i < |lists| && s.result == MergeAll([lists[i]])
  {
    ReachableIsInv(lists, s);
    assert Picked(lists, s.order) == [lists[i]];
  }

  lemma Begun(lists: seq<seq<Row>>, sizes: seq<int>, i: nat) returns (s: State)
    requires i < |lists| == |sizes|
    ensures Reachable(lists, s) && Sized(lists, s) && s.sizes == sizes && s.holder == None && !s.closed
    ensures s.phases == Ahead(|lists|, i, 0, Ready(MergeAll([lists[i]]), sizes[i]))
  {
    var start := Start(sizes);
    assert Leads(lists, start, [], start);
    s := RunToSnapshot(lists, start, i);
    FirstResult(lists, s, i);
    assert s.phases == Ahead(|lists|, i, 0, Ready(MergeAll([lists[i]]), sizes[i]));
  }

  /** The channel is closed, and every chunk succeeded. */
  ghost predicate CompleteRun(lists: seq<seq<Row>>, s: State) {
    Reachable(lists, s) && s.closed && forall i | 0 <= i < |s.phases| :: s.phases[i] == Sent(true)
  }

  function Last(s: State): Message
    requires s.messages != []
  {
    s.messages[|s.messages| - 1]
  }

  /** For any number of chunks and each of them: in a run in which every chunk succeeds the last message can
      be a copy of the result that covers the rows of this chunk alone, because its goroutine copied first
      and sent last. */
  lemma LastMessageMayBePartial(lists: seq<seq<Row>>, sizes: seq<int>, i: nat) returns (s: State)
    requires i < |lists| == |sizes|
    ensures CompleteRun(lists, s) && s.sizes == sizes
    ensures s.messages != [] && Last(s) == Entries(i + 1, MergeAll([lists[i]]), sizes[i])
  {
    var p := Ready(MergeAll([lists[i]]), sizes[i]);
    s := Begun(lists, sizes, i);
    s := OthersOvertake(lists, s, i, 0, p);
    s := ReachableOn(lists, s, Send(i));
    s := ReachableOn(lists, s, CloseChannel);
  }

  /** As it is read, the message has the frequencies of the merge of all lists. */
  ghost predicate IsWhole(lists: seq<seq<Row>>, s: State, m: Message) {
    && m.Entries? && |m.entries| <= |s.result|
    && forall w :: Total(Received(s, m), w) == TotalOfAll(lists, w)
  }

  ghost predicate LastIsWhole(lists: seq<seq<Row>>, s: State) {
    s.messages != [] && IsWhole(lists, s, Last(s))
  }

  ghost predicate LastIsAlwaysWhole(lists: seq<seq<Row>>) {
    forall s | CompleteRun(lists, s) :: LastIsWhole(lists, s)
  }

  /** Each list names every value that any chunk counted. */
  ghost predicate AllNameCounted(lists: seq<seq<Row>>) {
    forall i, w | 0 <= i < |lists| && TotalOfAll(lists, w) != 0 :: Has(lists[i], w)
  }

  lemma EmptySplitSendsNothing() returns (s: State)
    ensures CompleteRun([], s) && s.sizes == [] && s.messages == []
  {
    var lists: seq<seq<Row>> := [];
    s := Start([]);
    assert Leads(lists, s, [], s);
    s := ReachableOn(lists, s, CloseChannel);
  }

  lemma EveryMessageHasEntries(lists: seq<seq<Row>>, s: State, k: nat)
    requires CompleteRun(lists, s) && k < |s.messages|
    ensures Sized(lists, s) && s.messages[k].Entries? && 1 <= s.messages[k].chunkNum <= |lists|
  {
    ReachableIsInv(lists, s);
  }

  /** A value that a list does not name can be missing from what is read of the last message. */
  lemma ValueIsMissed(lists: seq<seq<Row>>, i: nat, w: Word) returns (s: State)
    requires i < |lists| && TotalOfAll(lists, w) != 0 && !Has(lists[i], w)
    requires forall j | 0 <= j < |lists| :: NonNegative(lists[j])
    ensures CompleteRun(lists, s) && !LastIsWhole(lists, s)
  {
    s := LastMessageMayBePartial(lists, seq(|lists|, _ => 0), i);
    var k := |s.messages| - 1;
    MessagesGrow(lists, s, k);
    MergeAllWords([lists[i]], w);
    SameWords(s.messages[k].entries, s.result, w);
    TotalOfAbsent(Received(s, s.messages[k]), w);
  }

  lemma ResultOfComplete(lists: seq<seq<Row>>, s: State, w: Word)
    requires CompleteRun(lists, s)
    ensures DistinctWords(s.result) && Total(s.result, w) == TotalOfAll(lists, w)
  {
    ReachableIsInv(lists, s);
    NobodyHolds(lists, s);
    AllMerged(lists, s);
    MergeAllDistinct(Picked(lists, s.order));
    MergeAllAddsTotals(Picked(lists, s.order), w);
    TotalOfAllPermuted(lists, Picked(lists, s.order), w);
  }

  /** A value that the message names is read with its final frequency. */
  lemma NamedIsWhole(lists: seq<seq<Row>>, s: State, k: nat, w: Word)
    requires CompleteRun(lists, s) && k < |s.messages| && s.messages[k].Entries?
    requires forall j | 0 <= j < |lists| :: NonNegative(lists[j])
    requires 1 <= s.messages[k].chunkNum <= |lists| && Has(lists[s.messages[k].chunkNum - 1], w)
    ensures |s.messages[k].entries| <= |s.result|
    ensures Total(Received(s, s.messages[k]), w) == TotalOfAll(lists, w)
  {
    MessagesGrow(lists, s, k);
    ResultOfComplete(lists, s, w);
    MessageNamesOwn(lists, s, k, w);
    SameWords(s.messages[k].entries, s.result, w);
    TotalWithin(s.result, |s.messages[k].entries|, w);
  }

  lemma LastReadIsWhole(lists: seq<seq<Row>>, s: State)
    requires CompleteRun(lists, s) && lists != [] && AllNameCounted(lists)
    requires forall j | 0 <= j < |lists| :: NonNegative(lists[j])
    ensures LastIsWhole(lists, s)
  {
    OneMessagePerChunk(lists, s);
    var k := |s.messages| - 1;
    EveryMessageHasEntries(lists, s, k);
    MessagesGrow(lists, s, k);
    forall w ensures Total(Received(s, s.messages[k]), w) == TotalOfAll(lists, w) {
      if TotalOfAll(lists, w) != 0 {
        NamedIsWhole(lists, s, k, w);
      } else {
        ReceivedCoversItsChunk(lists, s, k, w);
        TotalOfPrefix(lists[s.messages[k].chunkNum - 1], |lists[s.messages[k].chunkNum - 1]|, w);
      }
    }
  }

  /** What is read of the last message of every run without failures has the frequencies of the merge of all
      lists, if and only if there is a chunk, and each list names every value that any chunk counted: the
      frequencies of shared rows are final, but a value can be missing. */
  lemma LastMessageCondition(lists: seq<seq<Row>>)
    requires forall i | 0 <= i < |lists| :: NonNegative(lists[i])
    ensures LastIsAlwaysWhole(lists) <==> lists != [] && AllNameCounted(lists)
  {
    if lists == [] {
      var s := EmptySplitSendsNothing();
      assert CompleteRun(lists, s) && !LastIsWhole(lists, s);
    } else if AllNameCounted(lists) {
      forall s | CompleteRun(lists, s) ensures LastIsWhole(lists, s) {
        LastReadIsWhole(lists, s);
      }
    } else {
      var i: nat, w :| i < |lists| && TotalOfAll(lists, w) != 0 && !Has(lists[i], w);
      var s := ValueIsMissed(lists, i, w);
    }
  }

  // ----- the size in the last message -----

  ghost predicate LastSizeIsAlwaysWhole(lists: seq<seq<Row>>, sizes: seq<int>) {
    forall s | CompleteRun(lists, s) && s.sizes == sizes ::
      s.messages != [] && Last(s).Entries? && Last(s).concSize == SumBy(Id, sizes)
  }

  /** The size in a message is at least that of its own chunk, and at most that of all. */
  lemma MessageSize(lists: seq<seq<Row>>, s: State, k: nat)
    requires Reachable(lists, s) && k < |s.messages| && s.messages[k].Entries?
    requires forall i | 0 <= i < |s.sizes| :: s.sizes[i] >= 0
    ensures 1 <= s.messages[k].chunkNum <= |s.sizes|
    ensures s.sizes[s.messages[k].chunkNum - 1] <= s.messages[k].concSize <= SumBy(Id, s.sizes)
  {
    ReachableIsInv(lists, s);
    ReachableSizes(lists, s);
    LockedOnce(lists, s);
    SizeOfMessage(s, k);
  }

  lemma SizeOfMessage(s: State, k: nat)
    requires |s.phases| == |s.sizes| && KindsOk(s.messages, s.phases) && SizesOk(s)
    requires NoRepetition(Locked(s.order, s.holder)) && k < |s.messages| && s.messages[k].Entries?
    requires forall i | 0 <= i < |s.sizes| :: s.sizes[i] >= 0
    ensures 1 <= s.messages[k].chunkNum <= |s.sizes|
    ensures s.sizes[s.messages[k].chunkNum - 1] <= s.messages[k].concSize <= SumBy(Id, s.sizes)
  {
    HasSizeBounds(s.sizes, Locked(s.order, s.holder), s.messages[k].chunkNum - 1, s.messages[k].concSize);
  }

  lemma HasSizeBounds(sizes: seq<int>, locked: seq<nat>, i: nat, size: int)
    requires InRange(sizes, locked) && NoRepetition(locked) && i < |sizes| && HasSize(sizes, locked, i, size)
    requires forall j | 0 <= j < |sizes| :: sizes[j] >= 0
    ensures sizes[i] <= size <= SumBy(Id, sizes)
  {
    var n: nat :| IsSize(sizes, locked, i, size, n);
    SizeBounds(sizes, locked[..n], i);
  }

  lemma LockedOnce(lists: seq<seq<Row>>, s: State)
    requires Sized(lists, s) && OrderOk(s.order, s.phases) && HolderOk(lists, s.holder, s.phases)
    ensures NoRepetition(Locked(s.order, s.holder))
  {
    if s.holder.Some? {
      HolderIsMerging(lists, s.holder, s.phases);
      assert s.holder.value !in s.order;
    }
  }

  lemma SizeBounds(sizes: seq<int>, picks: seq<nat>, i: nat)
    requires InRange(sizes, picks) && NoRepetition(picks) && i in picks
    requires forall j | 0 <= j < |sizes| :: sizes[j] >= 0
    ensures i < |sizes| && sizes[i] <= SumOf(sizes, picks) <= SumBy(Id, sizes)
  {
    PickedBounds(Id, sizes, picks, i, 0);
  }

  lemma TwoSizes(sizes: seq<int>, i: nat, j: nat)
    requires i < |sizes| && j < |sizes| && i != j && forall k | 0 <= k < |sizes| :: sizes[k] >= 0
    ensures sizes[i] + sizes[j] <= SumBy(Id, sizes)
  {
    SizeBounds(sizes, [i, j], i);
    SumOfMore(sizes, [i], j);
    assert [i] + [j] == [i, j];
    SumOfOne(Id, sizes[i]);
    assert Picked(sizes, [i]) == [sizes[i]];
  }

  /** The size is copied by value: in every run without failures the last message has the size of all chunks,
      if and only if there is exactly one chunk, or there are chunks but no hits. */
  lemma LastSizeCondition(lists: seq<seq<Row>>, sizes: seq<int>)
    requires |lists| == |sizes| && forall i | 0 <= i < |sizes| :: sizes[i] >= 0
    ensures LastSizeIsAlwaysWhole(lists, sizes) <==>
            |sizes| == 1 || (sizes != [] && forall i | 0 <= i < |sizes| :: sizes[i] == 0)
  {
    if sizes == [] {
      var s := EmptySplitSendsNothing();
    } else if |sizes| == 1 || forall i | 0 <= i < |sizes| :: sizes[i] == 0 {
      forall s | CompleteRun(lists, s) && s.sizes == sizes
        ensures s.messages != [] && Last(s).Entries? && Last(s).concSize == SumBy(Id, sizes)
      {
        LastSizeIsWhole(lists, s);
      }
    } else {
      var j: nat :| j < |sizes| && sizes[j] != 0;
      var i := if j == 0 then 1 else 0;
      var s := LastMessageMayBePartial(lists, sizes, i);
      TwoSizes(sizes, i, j);
    }
  }

  lemma LastSizeIsWhole(lists: seq<seq<Row>>, s: State)
    requires CompleteRun(lists, s) && s.sizes != []
    requires |s.sizes| == 1 || forall i | 0 <= i < |s.sizes| :: s.sizes[i] == 0
    requires forall i | 0 <= i < |s.sizes| :: s.sizes[i] >= 0
    ensures s.messages != [] && Last(s).Entries? && Last(s).concSize == SumBy(Id, s.sizes)
  {
    OneMessagePerChunk(lists, s);
    EveryMessageHasEntries(lists, s, |s.messages| - 1);
    MessageSize(lists, s, |s.messages| - 1);
    if |s.sizes| == 1 {
      SumOfOne(Id, s.sizes[0]);
      assert s.sizes == [s.sizes[0]];
    } else {
      AllZero(Id, s.sizes);
    }
  }
}
