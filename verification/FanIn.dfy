/** The fan-in of `streamCalc` (corpus/handlers/ttchunked.go): one goroutine per chunk waits for its
    worker's answer, merges it into the shared result under a lock and, after unlocking, reads the
    shared result again and sends it. A step is one action of one goroutine; a merge takes one step per
    row, so that a reader, who does not hold the lock, can see half of another chunk's rows.
    What is sent is a copy of the result's fields: the size is a value, but the rows are shared. Whoever
    receives the message sees the rows that the copied slice covers as later merges have left them. */
module FanIn {
  import opened FreqRows
  import opened Permutations
  import opened Wrappers

  /** `Merging`: the lock is held, and so many rows are merged. `Merged`: the lock is released, the message
      is not built yet. `Ready`: the snapshot is taken, the send may be blocked. */
  datatype Phase =
    | Starting
    | Waiting
    | Failed
    | Merging(done: nat)
    | Merged
    | Ready(snapshot: seq<Row>, size: int)
    | Sent(success: bool)

  /** Chunk numbers start with 1. `entries` are the rows as they were when the result was copied. */
  datatype Message = Entries(chunkNum: nat, entries: seq<Row>, concSize: int) | Failure(chunkNum: nat)

  datatype State = State(
    sizes: seq<int>,         // the concordance sizes that the workers answer if they succeed
    phases: seq<Phase>,
    result: seq<Row>,
    concSize: int,
    holder: Option<nat>,     // who holds the lock
    order: seq<nat>,         // history: the chunks in the order in which their merges ended
    messages: seq<Message>,
    closed: bool)

  datatype Step =
    | PublishFails(chunk: nat)
    | Publish(chunk: nat)
    | AnswerFails(chunk: nat)
    | Lock(chunk: nat)
    | MergeRow(chunk: nat)
    | Unlock(chunk: nat)
    | ReadResult(chunk: nat)
    | Send(chunk: nat)
    | CloseChannel

  function NotStarted(n: nat): (phases: seq<Phase>)
    ensures |phases| == n && forall i | 0 <= i < n :: phases[i] == Starting
  {
    seq(n, _ => Starting)
  }

  function Start(sizes: seq<int>): State {
    State(sizes, NotStarted(|sizes|), [], 0, None, [], [], false)
  }

  /** There is a list and a size for each chunk. */
  predicate Sized(lists: seq<seq<Row>>, s: State) {
    |lists| == |s.phases| == |s.sizes|
  }

  /** `lists[i]` is what the worker of chunk `i` answers if it succeeds. */
  predicate Enabled(lists: seq<seq<Row>>, s: State, step: Step)
    requires Sized(lists, s)
  {
    match step
    case PublishFails(i) => i < |s.phases| && s.phases[i] == Starting
    case Publish(i) => i < |s.phases| && s.phases[i] == Starting
    case AnswerFails(i) => i < |s.phases| && s.phases[i] == Waiting
    case Lock(i) => i < |s.phases| && s.phases[i] == Waiting && s.holder == None
    case MergeRow(i) => i < |s.phases| && s.phases[i].Merging? && s.phases[i].done < |lists[i]|
    case Unlock(i) => i < |s.phases| && s.phases[i] == Merging(|lists[i]|)
    case ReadResult(i) => i < |s.phases| && s.phases[i] == Merged
    case Send(i) => i < |s.phases| && (s.phases[i] == Failed || s.phases[i].Ready?)
    case CloseChannel => !s.closed && forall i | 0 <= i < |s.phases| :: s.phases[i].Sent?
  }

  function At(s: State, i: nat, p: Phase): State
    requires i < |s.phases|
  {
    s.(phases := s.phases[i := p])
  }

  function MessageOf(i: nat, p: Phase): Message {
    if p.Ready? then Entries(i + 1, p.snapshot, p.size) else Failure(i + 1)
  }

  function After(lists: seq<seq<Row>>, s: State, step: Step): State
    requires Sized(lists, s) && Enabled(lists, s, step)
  {
    match step
    case PublishFails(i) => At(s, i, Failed)
    case Publish(i) => At(s, i, Waiting)
    case AnswerFails(i) => At(s, i, Failed)
    case Lock(i) => At(s, i, Merging(0)).(holder := Some(i), concSize := s.concSize + s.sizes[i])
    case MergeRow(i) =>
      var done := s.phases[i].done;
      At(s, i, Merging(done + 1)).(result := AddRow(s.result, lists[i][done]))
    case Unlock(i) => At(s, i, Merged).(holder := None, order := s.order + [i])
    case ReadResult(i) => At(s, i, Ready(s.result, s.concSize))
    case Send(i) =>
      At(s, i, Sent(s.phases[i].Ready?)).(messages := s.messages + [MessageOf(i, s.phases[i])])
    case CloseChannel => s.(closed := true)
  }

  predicate Leads(lists: seq<seq<Row>>, from: State, steps: seq<Step>, s: State)
    requires Sized(lists, from)
    decreases |steps|
  {
    if steps == [] then s == from
    else Enabled(lists, from, steps[0]) && Leads(lists, After(lists, from, steps[0]), steps[1..], s)
  }

  ghost predicate Reachable(lists: seq<seq<Row>>, s: State) {
    |s.sizes| == |lists| && exists steps :: Leads(lists, Start(s.sizes), steps, s)
  }

  // ----- the invariant -----

  predicate HasMerged(p: Phase) {
    p.Merged? || p.Ready? || p == Sent(true)
  }

  /** The chunks merged so far are those in `order`, each once. */
  ghost predicate OrderOk(order: seq<nat>, phases: seq<Phase>) {
    NoRepetition(order) && forall i: nat :: i in order <==> i < |phases| && HasMerged(phases[i])
  }

  /** Only the holder of the lock is merging. */
  ghost predicate HolderOk(lists: seq<seq<Row>>, holder: Option<nat>, phases: seq<Phase>)
    requires |lists| == |phases|
  {
    && (forall i: nat :: holder == Some(i) <==> i < |phases| && phases[i].Merging?)
    && (forall i | 0 <= i < |phases| && phases[i].Merging? :: phases[i].done <= |lists[i]|)
  }

  /** The rows that the holder of the lock has merged. */
  function Partial(lists: seq<seq<Row>>, holder: Option<nat>, phases: seq<Phase>): seq<Row>
    requires |lists| == |phases|
  {
    match holder
    case None => []
    case Some(i) =>
      if i < |lists| && phases[i].Merging? && phases[i].done <= |lists[i]| then lists[i][..phases[i].done] else []
  }

  /** What was merged behind the first `k` chunks: the rows of the next one, as far as they got. */
  function Next(lists: seq<seq<Row>>, order: seq<nat>, partial: seq<Row>, k: nat): seq<Row>
    requires InRange(lists, order) && k <= |order|
  {
    if k < |order| then lists[order[k]] else partial
  }

  predicate IsSnapshot(
    lists: seq<seq<Row>>, order: seq<nat>, partial: seq<Row>, i: nat, entries: seq<Row>, k: nat, j: nat)
    requires InRange(lists, order)
  {
    && k <= |order| && i in order[..k] && j <= |Next(lists, order, partial, k)|
    && entries == Merge(MergeAll(Picked(lists, order[..k])), Next(lists, order, partial, k)[..j])
  }

  /** The merge of the first merged chunks, `i` among them, and of some rows of the next one. */
  ghost predicate Snapshot(lists: seq<seq<Row>>, order: seq<nat>, partial: seq<Row>, i: nat, entries: seq<Row>)
    requires InRange(lists, order)
  {
    exists k: nat, j: nat :: IsSnapshot(lists, order, partial, i, entries, k, j)
  }

  ghost predicate MessageOk(lists: seq<seq<Row>>, order: seq<nat>, partial: seq<Row>, m: Message)
    requires InRange(lists, order)
  {
    m.Entries? && m.chunkNum > 0 ==> Snapshot(lists, order, partial, m.chunkNum - 1, m.entries)
  }

  ghost predicate SnapshotsOk(
    lists: seq<seq<Row>>, order: seq<nat>, partial: seq<Row>, phases: seq<Phase>, messages: seq<Message>)
    requires InRange(lists, order)
  {
    && (forall i | 0 <= i < |phases| && phases[i].Ready? :: Snapshot(lists, order, partial, i, phases[i].snapshot))
    && (forall k | 0 <= k < |messages| :: MessageOk(lists, order, partial, messages[k]))
  }

  function Numbers(messages: seq<Message>): (ns: seq<nat>)
    ensures |ns| == |messages| && forall k | 0 <= k < |ns| :: ns[k] == messages[k].chunkNum
  {
    seq(|messages|, k requires 0 <= k < |messages| => messages[k].chunkNum)
  }

  /** The chunks that have sent their message have one each. */
  ghost predicate NumbersOk(messages: seq<Message>, phases: seq<Phase>) {
    && NoRepetition(Numbers(messages))
    && forall c: nat :: c in Numbers(messages) <==> 1 <= c <= |phases| && phases[c - 1].Sent?
  }

  /** A message with entries is one of a chunk that succeeded, and only that. */
  predicate KindsOk(messages: seq<Message>, phases: seq<Phase>) {
    forall k | 0 <= k < |messages| ::
      var c := messages[k].chunkNum;
      1 <= c <= |phases| && phases[c - 1] == Sent(messages[k].Entries?)
  }

  /** Unless a merge is going on, the chunk that merged last still has to read the result, or has read
      all of it. */
  predicate LastSeesAll(s: State) {
    s.order != [] && s.holder == None ==>
      var last := s.order[|s.order| - 1];
      && last < |s.phases|
      && (|| s.phases[last].Merged?
          || s.phases[last] == Ready(s.result, s.concSize)
          || (s.phases[last] == Sent(true) && Entries(last + 1, s.result, s.concSize) in s.messages))
  }

  ghost predicate Inv(lists: seq<seq<Row>>, s: State) {
    && Sized(lists, s) && OrderOk(s.order, s.phases) && HolderOk(lists, s.holder, s.phases)
    && NumbersOk(s.messages, s.phases) && KindsOk(s.messages, s.phases)
    && InRange(lists, s.order) && LastSeesAll(s)
    && var partial := Partial(lists, s.holder, s.phases);
       && SnapshotsOk(lists, s.order, partial, s.phases, s.messages)
       && s.result == Merge(MergeAll(Picked(lists, s.order)), partial)
       && (s.closed ==> AllSent(s.phases))
  }

  predicate AllSent(phases: seq<Phase>) {
    forall i | 0 <= i < |phases| :: phases[i].Sent?
  }

  lemma HolderIsMerging(lists: seq<seq<Row>>, holder: Option<nat>, phases: seq<Phase>)
    requires |lists| == |phases| && HolderOk(lists, holder, phases) && holder.Some?
    ensures holder.value < |phases| && phases[holder.value].Merging?
    ensures phases[holder.value].done <= |lists[holder.value]|
  {
    assert holder == Some(holder.value);
  }

  // ----- snapshots stay snapshots -----

  lemma SnapshotStays(
    lists: seq<seq<Row>>, order: seq<nat>, partial: seq<Row>, more: seq<Row>, i: nat, entries: seq<Row>)
    requires InRange(lists, order) && partial <= more && Snapshot(lists, order, partial, i, entries)
    ensures Snapshot(lists, order, more, i, entries)
  {
    var k: nat, j: nat :| IsSnapshot(lists, order, partial, i, entries, k, j);
    assert Next(lists, order, more, k)[..j] == Next(lists, order, partial, k)[..j];
    assert IsSnapshot(lists, order, more, i, entries, k, j);
  }

  lemma SnapshotEnds(lists: seq<seq<Row>>, order: seq<nat>, c: nat, i: nat, entries: seq<Row>)
    requires InRange(lists, order) && c < |lists| && Snapshot(lists, order, lists[c], i, entries)
    ensures Snapshot(lists, order + [c], [], i, entries)
  {
    var k: nat, j: nat :| IsSnapshot(lists, order, lists[c], i, entries, k, j);
    assert (order + [c])[..k] == order[..k];
    assert Next(lists, order + [c], [], k) == Next(lists, order, lists[c], k);
    assert IsSnapshot(lists, order + [c], [], i, entries, k, j);
  }

  /** The snapshots survive a step that changes no message and makes no snapshot. */
  lemma SnapshotsStay(
    lists: seq<seq<Row>>, order: seq<nat>, partial: seq<Row>, more: seq<Row>,
    before: seq<Phase>, phases: seq<Phase>, messages: seq<Message>)
    requires |before| == |phases| && InRange(lists, order) && SnapshotsOk(lists, order, partial, before, messages)
    requires partial <= more
    requires forall i | 0 <= i < |phases| && phases[i].Ready? :: phases[i] == before[i]
    ensures SnapshotsOk(lists, order, more, phases, messages)
  {
    forall i | 0 <= i < |phases| && phases[i].Ready?
      ensures Snapshot(lists, order, more, i, phases[i].snapshot)
    {
      SnapshotStays(lists, order, partial, more, i, before[i].snapshot);
    }
    forall k | 0 <= k < |messages| ensures MessageOk(lists, order, more, messages[k]) {
      var m := messages[k];
      if m.Entries? && m.chunkNum > 0 {
        SnapshotStays(lists, order, partial, more, m.chunkNum - 1, m.entries);
      }
    }
  }

  /** The snapshots survive the end of a merge. */
  lemma SnapshotsEnd(
    lists: seq<seq<Row>>, order: seq<nat>, c: nat, before: seq<Phase>, phases: seq<Phase>, messages: seq<Message>)
    requires c < |lists| && |before| == |phases| && InRange(lists, order)
    requires SnapshotsOk(lists, order, lists[c], before, messages)
    requires forall i | 0 <= i < |phases| && phases[i].Ready? :: phases[i] == before[i]
    ensures SnapshotsOk(lists, order + [c], [], phases, messages)
  {
    forall i | 0 <= i < |phases| && phases[i].Ready?
      ensures Snapshot(lists, order + [c], [], i, phases[i].snapshot)
    {
      SnapshotEnds(lists, order, c, i, before[i].snapshot);
    }
    forall k | 0 <= k < |messages| ensures MessageOk(lists, order + [c], [], messages[k]) {
      var m := messages[k];
      if m.Entries? && m.chunkNum > 0 {
        SnapshotEnds(lists, order, c, m.chunkNum - 1, m.entries);
      }
    }
  }

  // ----- every step keeps the invariant -----

  /** A change of phase of one chunk that has not sent, and does not send. */
  predicate Moves(phases: seq<Phase>, i: nat, p: Phase) {
    i < |phases| && !phases[i].Sent? && !p.Sent?
  }

  lemma NumbersAfterMove(messages: seq<Message>, phases: seq<Phase>, i: nat, p: Phase)
    requires NumbersOk(messages, phases) && KindsOk(messages, phases) && Moves(phases, i, p)
    ensures NumbersOk(messages, phases[i := p]) && KindsOk(messages, phases[i := p])
  {
  }

  lemma OrderAfterChange(order: seq<nat>, phases: seq<Phase>, i: nat, p: Phase)
    requires OrderOk(order, phases) && i < |phases| && HasMerged(phases[i]) == HasMerged(p)
    ensures OrderOk(order, phases[i := p])
  {
  }

  lemma HolderAfterChange(lists: seq<seq<Row>>, holder: Option<nat>, phases: seq<Phase>, i: nat, p: Phase)
    requires |lists| == |phases| && HolderOk(lists, holder, phases)
    requires i < |phases| && !phases[i].Merging? && !p.Merging?
    ensures HolderOk(lists, holder, phases[i := p])
    ensures Partial(lists, holder, phases[i := p]) == Partial(lists, holder, phases)
  {
  }

  lemma StillOpen(lists: seq<seq<Row>>, s: State, i: nat)
    requires Inv(lists, s) && i < |s.phases| && !s.phases[i].Sent?
    ensures !s.closed
  {
  }

  /** A failure, the beginning of the wait, or the reading of the result. */
  predicate Waits(s: State, i: nat, p: Phase) {
    && Moves(s.phases, i, p) && !s.phases[i].Merging? && !p.Merging? && p != Merged && !s.phases[i].Ready?
    && HasMerged(s.phases[i]) == HasMerged(p) && (p.Ready? ==> p.snapshot == s.result && p.size == s.concSize)
  }

  lemma OwnSnapshot(lists: seq<seq<Row>>, order: seq<nat>, partial: seq<Row>, i: nat)
    requires InRange(lists, order) && i in order
    ensures Snapshot(lists, order, partial, i, Merge(MergeAll(Picked(lists, order)), partial))
  {
    assert order[..|order|] == order && partial[..|partial|] == partial;
    assert IsSnapshot(
        lists, order, partial, i, Merge(MergeAll(Picked(lists, order)), partial), |order|, |partial|);
  }

  lemma SnapshotAdded(
    lists: seq<seq<Row>>, order: seq<nat>, partial: seq<Row>, phases: seq<Phase>, messages: seq<Message>,
    i: nat, p: Phase)
    requires InRange(lists, order) && SnapshotsOk(lists, order, partial, phases, messages) && i < |phases|
    requires p.Ready? ==> Snapshot(lists, order, partial, i, p.snapshot)
    ensures SnapshotsOk(lists, order, partial, phases[i := p], messages)
  {
  }

  lemma LastAfterWait(s: State, i: nat, p: Phase)
    requires LastSeesAll(s) && Waits(s, i, p)
    ensures LastSeesAll(At(s, i, p))
  {
  }

  lemma KeepsWait(lists: seq<seq<Row>>, s: State, i: nat, p: Phase)
    requires Inv(lists, s) && Waits(s, i, p)
    ensures Inv(lists, At(s, i, p))
  {
    var partial := Partial(lists, s.holder, s.phases);
    NumbersAfterMove(s.messages, s.phases, i, p);
    OrderAfterChange(s.order, s.phases, i, p);
    HolderAfterChange(lists, s.holder, s.phases, i, p);
    if p.Ready? {
      OwnSnapshot(lists, s.order, partial, i);
    }
    SnapshotAdded(lists, s.order, partial, s.phases, s.messages, i, p);
    LastAfterWait(s, i, p);
  }

  lemma HolderAfterLock(lists: seq<seq<Row>>, phases: seq<Phase>, i: nat)
    requires |lists| == |phases| && HolderOk(lists, None, phases) && i < |phases|
    ensures HolderOk(lists, Some(i), phases[i := Merging(0)])
    ensures Partial(lists, Some(i), phases[i := Merging(0)]) == []
  {
    forall j: nat | j < |phases| ensures !phases[j].Merging? {
      assert None != Some(j);
    }
  }

  lemma KeepsLock(lists: seq<seq<Row>>, s: State, i: nat)
    requires Inv(lists, s) && Enabled(lists, s, Lock(i))
    ensures Inv(lists, After(lists, s, Lock(i)))
  {
    var phases := s.phases[i := Merging(0)];
    NumbersAfterMove(s.messages, s.phases, i, Merging(0));
    OrderAfterChange(s.order, s.phases, i, Merging(0));
    HolderAfterLock(lists, s.phases, i);
    SnapshotsStay(lists, s.order, [], [], s.phases, phases, s.messages);
  }

  lemma HolderAfterRow(lists: seq<seq<Row>>, holder: Option<nat>, phases: seq<Phase>, i: nat)
    requires |lists| == |phases| && HolderOk(lists, holder, phases)
    requires i < |phases| && phases[i].Merging? && phases[i].done < |lists[i]|
    ensures holder == Some(i)
    ensures var done := phases[i].done;
            && HolderOk(lists, holder, phases[i := Merging(done + 1)])
            && Partial(lists, holder, phases[i := Merging(done + 1)]) ==
               Partial(lists, holder, phases) + [lists[i][done]]
  {
    assert holder == Some(i);
  }

  lemma ResultAfterRow(rows: seq<Row>, partial: seq<Row>, row: Row)
    ensures Merge(rows, partial + [row]) == AddRow(Merge(rows, partial), row)
  {
    assert (partial + [row])[..|partial|] == partial;
  }

  lemma KeepsRow(lists: seq<seq<Row>>, s: State, i: nat)
    requires Inv(lists, s) && Enabled(lists, s, MergeRow(i))
    ensures Inv(lists, After(lists, s, MergeRow(i)))
  {
    var t, done := After(lists, s, MergeRow(i)), s.phases[i].done;
    var partial := Partial(lists, s.holder, s.phases);
    var more := partial + [lists[i][done]];
    StillOpen(lists, s, i);
    NumbersAfterMove(s.messages, s.phases, i, Merging(done + 1));
    OrderAfterChange(s.order, s.phases, i, Merging(done + 1));
    HolderAfterRow(lists, s.holder, s.phases, i);
    SnapshotsStay(lists, s.order, partial, more, s.phases, t.phases, s.messages);
    ResultAfterRow(MergeAll(Picked(lists, s.order)), partial, lists[i][done]);
    assert Partial(lists, t.holder, t.phases) == more;
    assert SnapshotsOk(lists, t.order, more, t.phases, t.messages);
    assert t.result == Merge(MergeAll(Picked(lists, t.order)), more);
  }

  lemma HolderAfterUnlock(lists: seq<seq<Row>>, holder: Option<nat>, phases: seq<Phase>, i: nat)
    requires |lists| == |phases| && HolderOk(lists, holder, phases)
    requires i < |phases| && phases[i] == Merging(|lists[i]|)
    ensures Partial(lists, holder, phases) == lists[i]
    ensures HolderOk(lists, None, phases[i := Merged])
  {
    assert holder == Some(i);
    forall j: nat | j < |phases| && j != i ensures !phases[j].Merging? {
      assert holder != Some(j);
    }
  }

  lemma OrderAfterUnlock(order: seq<nat>, phases: seq<Phase>, i: nat)
    requires OrderOk(order, phases) && i < |phases| && phases[i].Merging?
    ensures OrderOk(order + [i], phases[i := Merged])
  {
    assert i !in order;
  }

  lemma ResultAfterUnlock(lists: seq<seq<Row>>, order: seq<nat>, i: nat)
    requires InRange(lists, order) && i < |lists|
    ensures Merge(MergeAll(Picked(lists, order + [i])), []) == Merge(MergeAll(Picked(lists, order)), lists[i])
  {
    assert Picked(lists, order + [i]) == Picked(lists, order) + [lists[i]];
    assert Picked(lists, order + [i])[..|order|] == Picked(lists, order);
  }

  lemma KeepsUnlock(lists: seq<seq<Row>>, s: State, i: nat)
    requires Inv(lists, s) && Enabled(lists, s, Unlock(i))
    ensures Inv(lists, After(lists, s, Unlock(i)))
  {
    var phases := s.phases[i := Merged];
    NumbersAfterMove(s.messages, s.phases, i, Merged);
    OrderAfterUnlock(s.order, s.phases, i);
    HolderAfterUnlock(lists, s.holder, s.phases, i);
    SnapshotsEnd(lists, s.order, i, s.phases, phases, s.messages);
    ResultAfterUnlock(lists, s.order, i);
  }

  lemma NumbersAfterSend(messages: seq<Message>, phases: seq<Phase>, i: nat, m: Message)
    requires NumbersOk(messages, phases) && KindsOk(messages, phases)
    requires i < |phases| && !phases[i].Sent? && m.chunkNum == i + 1
    ensures NumbersOk(messages + [m], phases[i := Sent(m.Entries?)])
    ensures KindsOk(messages + [m], phases[i := Sent(m.Entries?)])
  {
    assert Numbers(messages + [m]) == Numbers(messages) + [i + 1];
    assert i + 1 !in Numbers(messages);
    forall k | 0 <= k < |messages| ensures messages[k].chunkNum != i + 1 {
      assert Numbers(messages)[k] == messages[k].chunkNum;
    }
  }

  lemma SnapshotsAfterSend(
    lists: seq<seq<Row>>, order: seq<nat>, partial: seq<Row>, phases: seq<Phase>, messages: seq<Message>, i: nat)
    requires InRange(lists, order) && SnapshotsOk(lists, order, partial, phases, messages) && i < |phases|
    ensures var p := phases[i];
            SnapshotsOk(lists, order, partial, phases[i := Sent(p.Ready?)], messages + [MessageOf(i, p)])
  {
    assert MessageOk(lists, order, partial, MessageOf(i, phases[i]));
  }

  lemma LastAfterSend(s: State, t: State, i: nat, m: Message)
    requires LastSeesAll(s) && i < |s.phases| && !s.phases[i].Sent?
    requires t.phases == s.phases[i := Sent(s.phases[i].Ready?)] && t.messages == s.messages + [m]
    requires m == MessageOf(i, s.phases[i]) && t.order == s.order && t.holder == s.holder
    requires t.result == s.result && t.concSize == s.concSize && !s.phases[i].Merged?
    ensures LastSeesAll(t)
  {
    assert t.messages[|s.messages|] == m;
    assert forall x | x in s.messages :: x in t.messages;
  }

  lemma KeepsSent(lists: seq<seq<Row>>, s: State, i: nat)
    requires Inv(lists, s) && Enabled(lists, s, Send(i))
    ensures Inv(lists, After(lists, s, Send(i)))
  {
    var p, m := s.phases[i], MessageOf(i, s.phases[i]);
    NumbersAfterSend(s.messages, s.phases, i, m);
    OrderAfterChange(s.order, s.phases, i, Sent(p.Ready?));
    HolderAfterChange(lists, s.holder, s.phases, i, Sent(p.Ready?));
    SnapshotsAfterSend(lists, s.order, Partial(lists, s.holder, s.phases), s.phases, s.messages, i);
    LastAfterSend(s, After(lists, s, Send(i)), i, m);
  }

  lemma KeepsMerging(lists: seq<seq<Row>>, s: State, step: Step)
    requires Inv(lists, s) && Enabled(lists, s, step) && (step.Lock? || step.MergeRow? || step.Unlock?)
    ensures Inv(lists, After(lists, s, step))
  {
    match step
    case Lock(i) => KeepsLock(lists, s, i);
    case MergeRow(i) => KeepsRow(lists, s, i);
    case Unlock(i) => KeepsUnlock(lists, s, i);
  }

  lemma KeepsWaiting(lists: seq<seq<Row>>, s: State, step: Step)
    requires Inv(lists, s) && Enabled(lists, s, step)
    requires step.PublishFails? || step.Publish? || step.AnswerFails? || step.ReadResult?
    ensures Inv(lists, After(lists, s, step))
  {
    match step
    case PublishFails(i) => KeepsWait(lists, s, i, Failed);
    case Publish(i) => KeepsWait(lists, s, i, Waiting);
    case AnswerFails(i) => KeepsWait(lists, s, i, Failed);
    case ReadResult(i) => KeepsWait(lists, s, i, Ready(s.result, s.concSize));
  }

  lemma KeepsInv(lists: seq<seq<Row>>, s: State, step: Step)
    requires Inv(lists, s) && Enabled(lists, s, step)
    ensures Inv(lists, After(lists, s, step))
  {
    if step.Lock? || step.MergeRow? || step.Unlock? {
      KeepsMerging(lists, s, step);
    } else if step.CloseChannel? {
      assert Inv(lists, s.(closed := true));
    } else if step.Send? {
      KeepsSent(lists, s, step.chunk);
    } else {
      KeepsWaiting(lists, s, step);
    }
  }

  lemma {:induction false} LeadsKeepsInv(lists: seq<seq<Row>>, s: State, steps: seq<Step>, t: State)
    requires Inv(lists, s) && Leads(lists, s, steps, t)
    ensures Inv(lists, t)
    decreases |steps|
  {
    if steps != [] {
      KeepsInv(lists, s, steps[0]);
      LeadsKeepsInv(lists, After(lists, s, steps[0]), steps[1..], t);
    }
  }

  lemma ReachableIsInv(lists: seq<seq<Row>>, s: State)
    requires Reachable(lists, s)
    ensures Inv(lists, s)
  {
    var steps :| Leads(lists, Start(s.sizes), steps, s);
    LeadsKeepsInv(lists, Start(s.sizes), steps, s);
  }

  // ----- the sizes -----

  function Id(x: int): int { x }

  /** The chunks in the order in which they got the lock, and added their sizes. */
  function Locked(order: seq<nat>, holder: Option<nat>): seq<nat> {
    match holder
    case None => order
    case Some(i) => order + [i]
  }

  function SumOf(sizes: seq<int>, picks: seq<nat>): int
    requires InRange(sizes, picks)
  {
    SumBy(Id, Picked(sizes, picks))
  }

  predicate IsSize(sizes: seq<int>, locked: seq<nat>, i: nat, size: int, k: nat)
    requires InRange(sizes, locked)
  {
    k <= |locked| && i in locked[..k] && size == SumOf(sizes, locked[..k])
  }

  /** The size after the first chunks, `i` among them, got the lock. */
  ghost predicate HasSize(sizes: seq<int>, locked: seq<nat>, i: nat, size: int)
    requires InRange(sizes, locked)
  {
    exists k: nat :: IsSize(sizes, locked, i, size, k)
  }

  ghost predicate PhaseSizesOk(sizes: seq<int>, locked: seq<nat>, phases: seq<Phase>)
    requires InRange(sizes, locked)
  {
    forall i | 0 <= i < |phases| && phases[i].Ready? :: HasSize(sizes, locked, i, phases[i].size)
  }

  ghost predicate MessageSizesOk(sizes: seq<int>, locked: seq<nat>, messages: seq<Message>)
    requires InRange(sizes, locked)
  {
    forall k | 0 <= k < |messages| && messages[k].Entries? && messages[k].chunkNum > 0 ::
      HasSize(sizes, locked, messages[k].chunkNum - 1, messages[k].concSize)
  }

  ghost predicate SizesOk(s: State) {
    var locked := Locked(s.order, s.holder);
    && InRange(s.sizes, locked) && s.concSize == SumOf(s.sizes, locked)
    && PhaseSizesOk(s.sizes, locked, s.phases) && MessageSizesOk(s.sizes, locked, s.messages)
  }

  lemma SizeStays(sizes: seq<int>, locked: seq<nat>, c: nat, i: nat, size: int)
    requires InRange(sizes, locked) && c < |sizes| && HasSize(sizes, locked, i, size)
    ensures HasSize(sizes, locked + [c], i, size)
  {
    var k: nat :| IsSize(sizes, locked, i, size, k);
    assert (locked + [c])[..k] == locked[..k];
    assert IsSize(sizes, locked + [c], i, size, k);
  }

  lemma OwnSize(sizes: seq<int>, locked: seq<nat>, i: nat)
    requires InRange(sizes, locked) && i in locked
    ensures HasSize(sizes, locked, i, SumOf(sizes, locked))
  {
    assert locked[..|locked|] == locked;
    assert IsSize(sizes, locked, i, SumOf(sizes, locked), |locked|);
  }

  lemma SumOfMore(sizes: seq<int>, locked: seq<nat>, c: nat)
    requires InRange(sizes, locked) && c < |sizes|
    ensures SumOf(sizes, locked + [c]) == SumOf(sizes, locked) + sizes[c]
  {
    assert Picked(sizes, locked + [c]) == Picked(sizes, locked) + [sizes[c]];
    assert Picked(sizes, locked + [c])[..|locked|] == Picked(sizes, locked);
  }

  /** The sizes survive when one more chunk gets the lock. */
  lemma SizesStay(sizes: seq<int>, locked: seq<nat>, c: nat, phases: seq<Phase>, messages: seq<Message>)
    requires InRange(sizes, locked) && c < |sizes|
    requires PhaseSizesOk(sizes, locked, phases) && MessageSizesOk(sizes, locked, messages)
    ensures PhaseSizesOk(sizes, locked + [c], phases) && MessageSizesOk(sizes, locked + [c], messages)
  {
    forall i | 0 <= i < |phases| && phases[i].Ready? ensures HasSize(sizes, locked + [c], i, phases[i].size) {
      SizeStays(sizes, locked, c, i, phases[i].size);
    }
    forall k | 0 <= k < |messages| && messages[k].Entries? && messages[k].chunkNum > 0
      ensures HasSize(sizes, locked + [c], messages[k].chunkNum - 1, messages[k].concSize)
    {
      SizeStays(sizes, locked, c, messages[k].chunkNum - 1, messages[k].concSize);
    }
  }

  lemma PhaseSizeChanged(sizes: seq<int>, locked: seq<nat>, phases: seq<Phase>, i: nat, p: Phase)
    requires InRange(sizes, locked) && PhaseSizesOk(sizes, locked, phases) && i < |phases|
    requires p.Ready? ==> HasSize(sizes, locked, i, p.size)
    ensures PhaseSizesOk(sizes, locked, phases[i := p])
  {
  }

  lemma KeepsSizesLock(lists: seq<seq<Row>>, s: State, i: nat)
    requires Inv(lists, s) && SizesOk(s) && Enabled(lists, s, Lock(i))
    ensures SizesOk(After(lists, s, Lock(i)))
  {
    SumOfMore(s.sizes, s.order, i);
    SizesStay(s.sizes, s.order, i, s.phases, s.messages);
    PhaseSizeChanged(s.sizes, s.order + [i], s.phases, i, Merging(0));
  }

  lemma KeepsSizesRead(lists: seq<seq<Row>>, s: State, i: nat)
    requires Inv(lists, s) && SizesOk(s) && Enabled(lists, s, ReadResult(i))
    ensures SizesOk(After(lists, s, ReadResult(i)))
  {
    var locked := Locked(s.order, s.holder);
    assert s.order <= locked && i in s.order;
    OwnSize(s.sizes, locked, i);
    PhaseSizeChanged(s.sizes, locked, s.phases, i, Ready(s.result, s.concSize));
  }

  lemma KeepsSizesSend(lists: seq<seq<Row>>, s: State, i: nat)
    requires Sized(lists, s) && SizesOk(s) && Enabled(lists, s, Send(i))
    ensures SizesOk(After(lists, s, Send(i)))
  {
    PhaseSizeChanged(s.sizes, Locked(s.order, s.holder), s.phases, i, Sent(s.phases[i].Ready?));
  }

  lemma KeepsSizesUnlock(lists: seq<seq<Row>>, s: State, i: nat)
    requires Inv(lists, s) && SizesOk(s) && Enabled(lists, s, Unlock(i))
    ensures SizesOk(After(lists, s, Unlock(i)))
  {
    assert s.holder == Some(i);
    PhaseSizeChanged(s.sizes, s.order + [i], s.phases, i, Merged);
  }

  lemma KeepsSizes(lists: seq<seq<Row>>, s: State, step: Step)
    requires Inv(lists, s) && SizesOk(s) && Enabled(lists, s, step)
    ensures SizesOk(After(lists, s, step))
  {
    match step
    case Lock(i) => KeepsSizesLock(lists, s, i);
    case Unlock(i) => KeepsSizesUnlock(lists, s, i);
    case ReadResult(i) => KeepsSizesRead(lists, s, i);
    case Send(i) => KeepsSizesSend(lists, s, i);
    case CloseChannel =>
    case _ =>
      PhaseSizeChanged(
        s.sizes, Locked(s.order, s.holder), s.phases, step.chunk, After(lists, s, step).phases[step.chunk]);
  }

  lemma {:induction false} LeadsKeepsSizes(lists: seq<seq<Row>>, s: State, steps: seq<Step>, t: State)
    requires Inv(lists, s) && SizesOk(s) && Leads(lists, s, steps, t)
    ensures SizesOk(t)
    decreases |steps|
  {
    if steps != [] {
      KeepsInv(lists, s, steps[0]);
      KeepsSizes(lists, s, steps[0]);
      LeadsKeepsSizes(lists, After(lists, s, steps[0]), steps[1..], t);
    }
  }

  lemma ReachableSizes(lists: seq<seq<Row>>, s: State)
    requires Reachable(lists, s)
    ensures SizesOk(s)
  {
    var steps :| Leads(lists, Start(s.sizes), steps, s);
    LeadsKeepsSizes(lists, Start(s.sizes), steps, s);
  }
}
