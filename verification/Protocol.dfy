/** The request/response protocol over Redis (rdb/client.go, worker/worker.go) as a transition system
    over any number of clients and workers. One step is one Redis command or one local decision; a
    failed command has no effect. Channel names (uuids) are fresh numbers. */
module Protocol {
  import opened Wrappers

  /** The channel a client listens on doubles as the key of its result. */
  datatype Query = Query(chan: nat, args: int)

  datatype Reason = Backend(code: int) | NotPublished | UnknownFunction | WorkerFailure

  datatype Value = Data(data: int) | Error(reason: Reason)

  /** `query` is the query a worker was working on when it built the value. */
  datatype WorkerResult = WorkerResult(query: Query, value: Value)

  // ----- the publish attempts of one worker step -----

  /** What the worker is about to publish: the function's result; an error of the same type because that
      failed; the answer to an unknown function; or the error of the whole step, tried last. */
  datatype Plan = FunctionResult(value: Value) | FunctionError | Unknown | LastResort

  /** How the protected run of a query ends. */
  datatype Outcome = Returns(value: Value) | UnknownArgs | Panics

  function FirstPlan(o: Outcome): Plan {
    match o
    case Returns(v) => FunctionResult(v)
    case UnknownArgs => Unknown
    case Panics => LastResort
  }

  function NextPlan(p: Plan): Option<Plan> {
    match p
    case FunctionResult(_) => Some(FunctionError)
    case FunctionError => Some(LastResort)
    case Unknown => Some(LastResort)
    case LastResort => None
  }

  function ValueOf(p: Plan): Value {
    match p
    case FunctionResult(v) => v
    case FunctionError => Error(NotPublished)
    case Unknown => Error(UnknownFunction)
    case LastResort => Error(WorkerFailure)
  }

  // ----- state -----

  datatype Stage =
    | Fetched(query: Query)
    | Running(query: Query)
    | Publishing(query: Query, plan: Plan, tries: nat, stored: bool)

  /** Why a query is dropped before it is run. */
  datatype Cause = Garbled | NotCounted | NobodyListens

  datatype Fate = Discarded(cause: Cause) | Replied(tries: nat) | GaveUp(tries: nat)

  datatype Client =
    | Subscribed(query: Query)
    | Abandoned(query: Query)
    | Waiting(query: Query)
    | Notified(query: Query, payload: nat)
    | Answered(query: Query)
    | Closed(query: Query)

  datatype Answer = Delivered(result: WorkerResult) | LookupFailed | Undecodable | TimedOut

  /** Everything that belongs to one channel name: the client behind it, its subscription, the Redis key
      of that name, and the history of the query that carries it. */
  datatype Chan = Chan(
    client: Client,
    listening: bool,
    stored: Option<WorkerResult>,
    expired: bool,              // the key expired since it was last set
    mail: seq<nat>,             // undelivered notifications: the payload is a key
    taker: Option<nat>,         // the worker that popped the query
    runs: nat,                  // how often a run of the query started
    outcome: Option<Outcome>,   // how the run of the query ended
    sent: nat,                  // successful notifications
    fate: Option<Fate>,         // how a worker finished with the query
    emitted: seq<Answer>)       // what the waiting goroutine sent

  datatype State = State(
    queue: seq<Query>,          // newest first: LPUSH at the front, RPOP at the end
    workers: map<nat, Stage>,   // the busy workers
    chans: map<nat, Chan>,
    next: nat,                  // channel names below this one are taken
    pushed: seq<Query>,         // history of the queue
    popped: seq<Query>)

  const INITIAL := State([], map[], map[], 0, [], [])

  // ----- steps -----

  datatype Step =
    | Subscribe(args: int)
    | Push(chan: nat, ok: bool)
    | Dequeue(worker: nat, decodes: bool)
    | CheckListener(worker: nat, ok: bool)
    | Run(worker: nat, outcome: Outcome)
    | SetResult(worker: nat, ok: bool)
    | Notify(worker: nat, ok: bool)
    | Receive(chan: nat)
    | Get(chan: nat, ok: bool, decodes: bool)
    | TimeOut(chan: nat)
    | Close(chan: nat)
    | Expire(chan: nat)

  predicate Enabled(s: State, step: Step) {
    match step
    case Subscribe(_) => true
    case Push(c, _) => c in s.chans && s.chans[c].client.Subscribed?
    case Dequeue(w, _) => w !in s.workers && s.queue != [] && s.queue[|s.queue| - 1].chan in s.chans
    case CheckListener(w, _) => AtStage(s, w) && s.workers[w].Fetched?
    case Run(w, _) => AtStage(s, w) && s.workers[w].Running?
    case SetResult(w, _) => AtStage(s, w) && s.workers[w].Publishing? && !s.workers[w].stored
    case Notify(w, _) => AtStage(s, w) && s.workers[w].Publishing? && s.workers[w].stored
    case Receive(c) => c in s.chans && s.chans[c].client.Waiting? && s.chans[c].mail != []
    case Get(c, _, _) => c in s.chans && s.chans[c].client.Notified?
    case TimeOut(c) => c in s.chans && s.chans[c].client.Waiting?
    case Close(c) => c in s.chans && s.chans[c].client.Answered?
    case Expire(c) => c in s.chans && s.chans[c].stored.Some?
  }

  predicate AtStage(s: State, w: nat) {
    w in s.workers && s.workers[w].query.chan in s.chans
  }

  function AfterSubscribe(s: State, args: int): State {
    var c := Chan(Subscribed(Query(s.next, args)), true, None, false, [], None, 0, None, 0, None, []);
    s.(chans := s.chans[s.next := c], next := s.next + 1)
  }

  /** A failed push leaves the subscription behind. */
  function AfterPush(s: State, c: nat, ok: bool): State
    requires Enabled(s, Push(c, ok))
  {
    var r := s.chans[c];
    var q := r.client.query;
    if ok then
      s.(queue := [q] + s.queue, pushed := s.pushed + [q], chans := s.chans[c := r.(client := Waiting(q))])
    else
      s.(chans := s.chans[c := r.(client := Abandoned(q))])
  }

  /** The worker is done with the query. */
  function Finish(s: State, w: nat, c: nat, fate: Fate): State
    requires c in s.chans
  {
    s.(workers := s.workers - {w}, chans := s.chans[c := s.chans[c].(fate := Some(fate))])
  }

  function Fetch(s: State, w: nat): State
    requires Enabled(s, Dequeue(w, true))
  {
    var n := |s.queue| - 1;
    var q := s.queue[n];
    s.(queue := s.queue[..n], popped := s.popped + [q], workers := s.workers[w := Fetched(q)],
       chans := s.chans[q.chan := s.chans[q.chan].(taker := Some(w))])
  }

  /** A query that cannot be decoded is lost. */
  function AfterDequeue(s: State, w: nat, decodes: bool): State
    requires Enabled(s, Dequeue(w, decodes))
  {
    var t := Fetch(s, w);
    if decodes then t else Finish(t, w, t.workers[w].query.chan, Discarded(Garbled))
  }

  /** A query nobody listens for, or one whose listeners cannot be counted, is dropped. */
  function AfterCheck(s: State, w: nat, ok: bool): State
    requires Enabled(s, CheckListener(w, ok))
  {
    var q := s.workers[w].query;
    if ok && s.chans[q.chan].listening then s.(workers := s.workers[w := Running(q)])
    else Finish(s, w, q.chan, Discarded(if ok then NobodyListens else NotCounted))
  }

  function AfterRun(s: State, w: nat, outcome: Outcome): State
    requires Enabled(s, Run(w, outcome))
  {
    var q := s.workers[w].query;
    var r := s.chans[q.chan];
    s.(workers := s.workers[w := Publishing(q, FirstPlan(outcome), 1, false)],
       chans := s.chans[q.chan := r.(runs := r.runs + 1, outcome := Some(outcome))])
  }

  /** The attempt failed: go on to the next one, or give up. */
  function AttemptFailed(s: State, w: nat): State
    requires AtStage(s, w) && s.workers[w].Publishing?
  {
    var st := s.workers[w];
    match NextPlan(st.plan)
    case Some(p) => s.(workers := s.workers[w := Publishing(st.query, p, st.tries + 1, false)])
    case None => Finish(s, w, st.query.chan, GaveUp(st.tries))
  }

  function AfterSet(s: State, w: nat, ok: bool): State
    requires Enabled(s, SetResult(w, ok))
  {
    var st := s.workers[w];
    var c := st.query.chan;
    if ok then
      s.(workers := s.workers[w := st.(stored := true)],
         chans := s.chans[c := s.chans[c].(stored := Some(WorkerResult(st.query, ValueOf(st.plan))), expired := false)])
    else
      AttemptFailed(s, w)
  }

  function AfterNotify(s: State, w: nat, ok: bool): State
    requires Enabled(s, Notify(w, ok))
  {
    var st := s.workers[w];
    var c := st.query.chan;
    var r := s.chans[c];
    if ok then
      var mail := if r.listening then r.mail + [c] else r.mail;
      Finish(s.(chans := s.chans[c := r.(mail := mail, sent := r.sent + 1)]), w, c, Replied(st.tries))
    else
      AttemptFailed(s, w)
  }

  function AfterReceive(s: State, c: nat): State
    requires Enabled(s, Receive(c))
  {
    var r := s.chans[c];
    s.(chans := s.chans[c := r.(client := Notified(r.client.query, r.mail[0]), mail := r.mail[1..])])
  }

  function Lookup(s: State, key: nat, ok: bool, decodes: bool): Answer {
    if !ok || key !in s.chans || s.chans[key].stored == None then LookupFailed
    else if !decodes then Undecodable
    else Delivered(s.chans[key].stored.value)
  }

  function Emit(s: State, c: nat, a: Answer): State
    requires c in s.chans
  {
    var r := s.chans[c];
    s.(chans := s.chans[c := r.(client := Answered(r.client.query), emitted := r.emitted + [a])])
  }

  function AfterClose(s: State, c: nat): State
    requires Enabled(s, Close(c))
  {
    var r := s.chans[c];
    s.(chans := s.chans[c := r.(client := Closed(r.client.query), listening := false)])
  }

  function AfterExpire(s: State, c: nat): State
    requires Enabled(s, Expire(c))
  {
    s.(chans := s.chans[c := s.chans[c].(stored := None, expired := true)])
  }

  function After(s: State, step: Step): State
    requires Enabled(s, step)
  {
    match step
    case Subscribe(args) => AfterSubscribe(s, args)
    case Push(c, ok) => AfterPush(s, c, ok)
    case Dequeue(w, decodes) => AfterDequeue(s, w, decodes)
    case CheckListener(w, ok) => AfterCheck(s, w, ok)
    case Run(w, outcome) => AfterRun(s, w, outcome)
    case SetResult(w, ok) => AfterSet(s, w, ok)
    case Notify(w, ok) => AfterNotify(s, w, ok)
    case Receive(c) => AfterReceive(s, c)
    case Get(c, ok, decodes) => Emit(s, c, Lookup(s, s.chans[c].client.payload, ok, decodes))
    case TimeOut(c) => Emit(s, c, TimedOut)
    case Close(c) => AfterClose(s, c)
    case Expire(c) => AfterExpire(s, c)
  }

  /** `s` is reached from `from` by the given steps. */
  predicate Leads(from: State, steps: seq<Step>, s: State)
    decreases |steps|
  {
    if steps == [] then s == from
    else Enabled(from, steps[0]) && Leads(After(from, steps[0]), steps[1..], s)
  }

  ghost predicate Reachable(s: State) {
    exists steps :: Leads(INITIAL, steps, s)
  }

  // ----- the invariant -----

  predicate WasPushed(c: Client) {
    c.Waiting? || c.Notified? || c.Answered? || c.Closed?
  }

  function Reverse<T>(s: seq<T>): (r: seq<T>)
    ensures |r| == |s|
  {
    if s == [] then [] else Reverse(s[1..]) + [s[0]]
  }

  predicate DistinctChans(qs: seq<Query>) {
    forall i, j | 0 <= i < j < |qs| :: qs[i].chan != qs[j].chan
  }

  predicate IsQueryOf(s: State, q: Query) {
    q.chan in s.chans && s.chans[q.chan].client.query == q && WasPushed(s.chans[q.chan].client)
  }

  ghost predicate QueueOk(s: State) {
    && s.pushed == s.popped + Reverse(s.queue)
    && DistinctChans(s.pushed)
    && (forall i | 0 <= i < |s.pushed| :: IsQueryOf(s, s.pushed[i]))
    && (forall i | 0 <= i < |s.popped| :: IsQueryOf(s, s.popped[i]) && s.chans[s.popped[i].chan].taker.Some?)
    && (forall i | 0 <= i < |s.queue| :: IsQueryOf(s, s.queue[i]) && s.chans[s.queue[i].chan].taker.None?)
  }

  predicate WorkersOk(s: State) {
    forall w | w in s.workers ::
      IsQueryOf(s, s.workers[w].query) && s.chans[s.workers[w].query.chan].taker == Some(w)
  }

  /** What the worker that popped the query is doing with it, if it is still at it. */
  function StageOf(s: State, c: nat): Option<Stage>
    requires c in s.chans
  {
    var taker := s.chans[c].taker;
    if taker.Some? && taker.value in s.workers && s.workers[taker.value].query.chan == c then
      Some(s.workers[taker.value])
    else None
  }

  /** The plan of attempt `tries` after a run that ended with `o`. */
  predicate PlanFits(o: Outcome, plan: Plan, tries: nat) {
    match plan
    case FunctionResult(v) => o == Returns(v) && tries == 1
    case FunctionError => o.Returns? && tries == 2
    case Unknown => o == UnknownArgs && tries == 1
    case LastResort => tries == Attempts(o)
  }

  /** How many attempts there can be. */
  function Attempts(o: Outcome): nat {
    match o
    case Returns(_) => 3
    case UnknownArgs => 2
    case Panics => 1
  }

  /** Attempt `tries` after a run that ended with `o` publishes `v`. */
  predicate Publishes(o: Outcome, tries: nat, v: Value) {
    match o
    case Returns(w) => v == if tries == 1 then w else if tries == 2 then Error(NotPublished) else Error(WorkerFailure)
    case UnknownArgs => v == if tries == 1 then Error(UnknownFunction) else Error(WorkerFailure)
    case Panics => v == Error(WorkerFailure)
  }

  predicate Kept(r: Chan) {
    r.stored.Some? || r.expired
  }

  predicate Done(c: Client) {
    c.Answered? || c.Closed?
  }

  /** The client side of a channel. */
  predicate ClientOk(c: nat, r: Chan) {
    && r.client.query.chan == c
    && r.listening == !r.client.Closed?
    && (r.expired ==> r.stored.None?)
    && (r.mail != [] ==> r.mail == [c] && r.sent == 1 && !r.client.Notified?)
    && (r.sent == 1 && r.client.Waiting? ==> r.mail == [c])
    && (r.client.Notified? ==> r.client.payload == c && r.sent == 1)
    && (if Done(r.client) then |r.emitted| == 1 && Proper(r, r.emitted[0]) else r.emitted == [])
  }

  /** What is delivered is what the worker published for the client's own query in its last attempt. Without
      a notification there is nothing but the timeout. */
  predicate Proper(r: Chan, a: Answer) {
    && (a.TimedOut? || r.sent == 1)
    && (a.Delivered? ==> a.result.query == r.client.query && IsReply(r, a.result.value))
  }

  predicate IsReply(r: Chan, v: Value) {
    r.fate.Some? && r.fate.value.Replied? && r.outcome.Some? && Publishes(r.outcome.value, r.fate.value.tries, v)
  }

  /** The worker side of a channel. */
  predicate JobOk(r: Chan, stage: Option<Stage>) {
    && (r.taker.Some? ==> (r.fate.Some? <==> stage.None?))
    && (r.taker.None? ==> r.fate.None? && stage.None?)
    && (!WasPushed(r.client) ==> r.taker.None?)
    && r.runs <= 1 && r.sent <= 1
    && (r.runs == 0 ==> !Kept(r)) && (r.runs == 1 <==> r.outcome.Some?)
    && (r.stored.Some? ==> r.stored.value.query == r.client.query)
    && (r.sent == 1 ==> r.fate.Some? && r.fate.value.Replied? && Kept(r))
    && (r.sent == 1 && r.stored.Some? ==> IsReply(r, r.stored.value.value))
    && (r.fate.Some? ==> FateOk(r, r.fate.value))
    && (r.runs == 1 ==>
          || (r.fate.Some? && !r.fate.value.Discarded?)
          || (stage.Some? && stage.value.Publishing?))
    && (stage.Some? && stage.value.Publishing? ==> r.runs == 1 && PublishingOk(r, stage.value))
  }

  predicate FateOk(r: Chan, fate: Fate) {
    match fate
    case Discarded(cause) => cause == NobodyListens ==> r.client.Closed?
    case Replied(tries) => r.sent == 1 && r.outcome.Some? && 1 <= tries <= Attempts(r.outcome.value)
    case GaveUp(tries) => r.outcome.Some? && tries == Attempts(r.outcome.value)
  }

  predicate PublishingOk(r: Chan, stage: Stage)
    requires stage.Publishing?
  {
    && r.outcome.Some? && PlanFits(r.outcome.value, stage.plan, stage.tries)
    && (stage.stored ==> Kept(r))
    && (stage.stored && r.stored.Some? ==> Publishes(r.outcome.value, stage.tries, r.stored.value.value))
  }

  ghost predicate ChansOk(s: State) {
    && (forall c :: c in s.chans <==> 0 <= c < s.next)
    && (forall c | c in s.chans :: ClientOk(c, s.chans[c]) && JobOk(s.chans[c], StageOf(s, c)))
  }

  ghost predicate Inv(s: State) {
    QueueOk(s) && WorkersOk(s) && ChansOk(s)
  }

  // ----- every step keeps the invariant -----

  /** The record still belongs to the same query, at the same or a later point. */
  predicate SameQuery(before: Chan, r: Chan) {
    && r.client.query == before.client.query && r.taker == before.taker
    && (WasPushed(before.client) ==> WasPushed(r.client))
  }

  /** Only the record of `c` changes, and possibly the stage of the worker that has its query. */
  ghost predicate OneChanChanges(s: State, t: State, c: nat, r: Chan) {
    && c in s.chans && SameQuery(s.chans[c], r) && t.chans == s.chans[c := r] && t.next == s.next
    && t.queue == s.queue && t.pushed == s.pushed && t.popped == s.popped
    && (|| t.workers == s.workers
        || exists w :: WorkerMoves(s, t, c, w))
  }

  predicate WorkerMoves(s: State, t: State, c: nat, w: nat) {
    && w in s.workers && s.workers[w].query.chan == c
    && (|| t.workers == s.workers - {w}
        || (w in t.workers && t.workers == s.workers[w := t.workers[w]] && t.workers[w].query == s.workers[w].query))
  }

  lemma QueueKept(s: State, t: State, c: nat, r: Chan)
    requires QueueOk(s) && OneChanChanges(s, t, c, r)
    ensures QueueOk(t)
  {
    forall q | IsQueryOf(s, q)
      ensures IsQueryOf(t, q) && t.chans[q.chan].taker == s.chans[q.chan].taker
    {
    }
  }

  lemma WorkersKept(s: State, t: State, c: nat, r: Chan)
    requires WorkersOk(s) && OneChanChanges(s, t, c, r)
    ensures WorkersOk(t)
  {
    forall q | IsQueryOf(s, q)
      ensures IsQueryOf(t, q) && t.chans[q.chan].taker == s.chans[q.chan].taker
    {
    }
  }

  lemma OtherStagesKept(s: State, t: State, c: nat, r: Chan, d: nat)
    requires WorkersOk(s) && OneChanChanges(s, t, c, r) && d in s.chans && d != c
    ensures d in t.chans && t.chans[d] == s.chans[d] && StageOf(t, d) == StageOf(s, d)
  {
  }

  lemma OneChanKept(s: State, t: State, c: nat, r: Chan)
    requires Inv(s) && OneChanChanges(s, t, c, r)
    requires ClientOk(c, r) && JobOk(r, StageOf(t, c))
    ensures Inv(t)
  {
    QueueKept(s, t, c, r);
    WorkersKept(s, t, c, r);
    forall d | d in t.chans ensures ClientOk(d, t.chans[d]) && JobOk(t.chans[d], StageOf(t, d)) {
      if d != c {
        OtherStagesKept(s, t, c, r, d);
      }
    }
  }

  /** The stage of a worker is the stage of its query. */
  lemma StageOfWorker(s: State, w: nat)
    requires Inv(s) && w in s.workers
    ensures AtStage(s, w) && StageOf(s, s.workers[w].query.chan) == Some(s.workers[w])
    ensures IsQueryOf(s, s.workers[w].query)
    ensures ClientOk(s.workers[w].query.chan, s.chans[s.workers[w].query.chan])
    ensures JobOk(s.chans[s.workers[w].query.chan], Some(s.workers[w]))
  {
  }

  lemma KeepsCheck(s: State, w: nat, ok: bool)
    requires Inv(s) && Enabled(s, CheckListener(w, ok))
    ensures Inv(AfterCheck(s, w, ok))
  {
    var t, c := AfterCheck(s, w, ok), s.workers[w].query.chan;
    StageOfWorker(s, w);
    assert WorkerMoves(s, t, c, w);
    OneChanKept(s, t, c, t.chans[c]);
  }

  lemma KeepsRun(s: State, w: nat, outcome: Outcome)
    requires Inv(s) && Enabled(s, Run(w, outcome))
    ensures Inv(AfterRun(s, w, outcome))
  {
    var t, c := AfterRun(s, w, outcome), s.workers[w].query.chan;
    StageOfWorker(s, w);
    assert WorkerMoves(s, t, c, w);
    OneChanKept(s, t, c, t.chans[c]);
  }

  lemma JobAfterFailure(r: Chan, stage: Stage)
    requires stage.Publishing? && JobOk(r, Some(stage))
    ensures match NextPlan(stage.plan)
            case Some(p) => JobOk(r, Some(Publishing(stage.query, p, stage.tries + 1, false)))
            case None => JobOk(r.(fate := Some(GaveUp(stage.tries))), None)
  {
  }

  lemma KeepsAttemptFailed(s: State, w: nat)
    requires Inv(s) && AtStage(s, w) && s.workers[w].Publishing?
    ensures Inv(AttemptFailed(s, w))
  {
    var t, c := AttemptFailed(s, w), s.workers[w].query.chan;
    StageOfWorker(s, w);
    JobAfterFailure(s.chans[c], s.workers[w]);
    assert WorkerMoves(s, t, c, w);
    OneChanKept(s, t, c, t.chans[c]);
  }

  lemma KeepsSet(s: State, w: nat)
    requires Inv(s) && Enabled(s, SetResult(w, true))
    ensures Inv(AfterSet(s, w, true))
  {
    var t, c := AfterSet(s, w, true), s.workers[w].query.chan;
    StageOfWorker(s, w);
    assert WorkerMoves(s, t, c, w);
    OneChanKept(s, t, c, t.chans[c]);
  }

  lemma KeepsNotify(s: State, w: nat)
    requires Inv(s) && Enabled(s, Notify(w, true))
    ensures Inv(AfterNotify(s, w, true))
  {
    var t, c := AfterNotify(s, w, true), s.workers[w].query.chan;
    StageOfWorker(s, w);
    assert WorkerMoves(s, t, c, w);
    OneChanKept(s, t, c, t.chans[c]);
  }

  lemma KeepsReceive(s: State, c: nat)
    requires Inv(s) && Enabled(s, Receive(c))
    ensures Inv(AfterReceive(s, c))
  {
    var t := AfterReceive(s, c);
    OneChanKept(s, t, c, t.chans[c]);
  }

  lemma KeepsEmit(s: State, c: nat, a: Answer)
    requires Inv(s) && c in s.chans && (s.chans[c].client.Waiting? || s.chans[c].client.Notified?)
    requires Proper(s.chans[c], a)
    ensures Inv(Emit(s, c, a))
  {
    var t := Emit(s, c, a);
    OneChanKept(s, t, c, t.chans[c]);
  }

  lemma KeepsClose(s: State, c: nat)
    requires Inv(s) && Enabled(s, Close(c))
    ensures Inv(AfterClose(s, c))
  {
    var t := AfterClose(s, c);
    OneChanKept(s, t, c, t.chans[c]);
  }

  lemma KeepsExpire(s: State, c: nat)
    requires Inv(s) && Enabled(s, Expire(c))
    ensures Inv(AfterExpire(s, c))
  {
    var t := AfterExpire(s, c);
    OneChanKept(s, t, c, t.chans[c]);
  }

  lemma KeepsSubscribe(s: State, args: int)
    requires Inv(s)
    ensures Inv(AfterSubscribe(s, args))
  {
    var t := AfterSubscribe(s, args);
    forall q | IsQueryOf(s, q)
      ensures IsQueryOf(t, q) && t.chans[q.chan].taker == s.chans[q.chan].taker
    {
    }
    forall d | d in s.chans ensures t.chans[d] == s.chans[d] && StageOf(t, d) == StageOf(s, d) {
    }
  }

  /** The client that pushes waits from then on. */
  function Pushing(s: State, c: nat, client: Client): State
    requires c in s.chans
  {
    s.(chans := s.chans[c := s.chans[c].(client := client)])
  }

  lemma KeepsPushing(s: State, c: nat, client: Client)
    requires Inv(s) && c in s.chans && s.chans[c].client.Subscribed?
    requires client == Waiting(s.chans[c].client.query) || client == Abandoned(s.chans[c].client.query)
    ensures Inv(Pushing(s, c, client))
  {
    OneChanKept(s, Pushing(s, c, client), c, s.chans[c].(client := client));
  }

  lemma QueueAfterPush(s: State, q: Query)
    requires QueueOk(s) && IsQueryOf(s, q) && s.chans[q.chan].taker.None?
    requires forall i | 0 <= i < |s.pushed| :: s.pushed[i].chan != q.chan
    ensures QueueOk(s.(queue := [q] + s.queue, pushed := s.pushed + [q]))
  {
    assert ([q] + s.queue)[1..] == s.queue;
    assert s.pushed + [q] == s.popped + Reverse([q] + s.queue);
  }

  lemma KeepsPush(s: State, c: nat, ok: bool)
    requires Inv(s) && Enabled(s, Push(c, ok))
    ensures Inv(AfterPush(s, c, ok))
  {
    var q := s.chans[c].client.query;
    if ok {
      var t, waiting := AfterPush(s, c, ok), Pushing(s, c, Waiting(q));
      KeepsPushing(s, c, Waiting(q));
      forall i | 0 <= i < |s.pushed| ensures s.pushed[i].chan != c {
        assert IsQueryOf(s, s.pushed[i]);
      }
      assert ClientOk(c, s.chans[c]) && JobOk(s.chans[c], StageOf(s, c));
      QueueAfterPush(waiting, q);
      assert t == waiting.(queue := [q] + s.queue, pushed := s.pushed + [q]);
      forall d | d in t.chans ensures StageOf(t, d) == StageOf(waiting, d) {
      }
    } else {
      KeepsPushing(s, c, Abandoned(q));
    }
  }

  lemma {:induction false} ReverseLast<T>(s: seq<T>)
    requires s != []
    ensures Reverse(s) == [s[|s| - 1]] + Reverse(s[..|s| - 1])
  {
    if |s| > 1 {
      ReverseLast(s[1..]);
      assert s[1..][..|s| - 2] == s[..|s| - 1][1..];
    }
  }

  /** The popped query is the oldest one that was not popped yet. */
  lemma PopsOldest(s: State)
    requires QueueOk(s) && s.queue != []
    ensures var n := |s.queue| - 1;
            && |s.popped| < |s.pushed| && s.queue[n] == s.pushed[|s.popped|]
            && s.pushed == s.popped + [s.queue[n]] + Reverse(s.queue[..n])
  {
    ReverseLast(s.queue);
    var n := |s.queue| - 1;
    assert s.pushed == s.popped + [s.queue[n]] + Reverse(s.queue[..n]);
  }

  lemma {:induction false} ReverseMembers<T>(s: seq<T>, x: T)
    ensures x in s <==> x in Reverse(s)
  {
    if s != [] {
      ReverseMembers(s[1..], x);
      assert s == [s[0]] + s[1..];
    }
  }

  /** Nothing else in the queue has the channel of the popped query. */
  lemma RestHasOtherChans(s: State, i: nat)
    requires QueueOk(s) && i < |s.queue| - 1
    ensures s.queue[i].chan != s.queue[|s.queue| - 1].chan
  {
    var n := |s.queue| - 1;
    var rest := s.queue[..n];
    PopsOldest(s);
    ReverseMembers(rest, rest[i]);
    var j :| 0 <= j < |Reverse(rest)| && Reverse(rest)[j] == rest[i];
    assert s.pushed[|s.popped| + 1 + j] == s.queue[i];
  }

  lemma QueueAfterPop(s: State, w: nat)
    requires Inv(s) && Enabled(s, Dequeue(w, true))
    ensures QueueOk(Fetch(s, w))
  {
    var t, n := Fetch(s, w), |s.queue| - 1;
    PopsOldest(s);
    forall i | 0 <= i < n ensures t.chans[s.queue[i].chan] == s.chans[s.queue[i].chan] {
      RestHasOtherChans(s, i);
      assert IsQueryOf(s, s.queue[i]);
    }
    forall q | IsQueryOf(s, q) ensures IsQueryOf(t, q) {
    }
    assert IsQueryOf(s, s.queue[n]);
  }

  lemma WorkersAfterPop(s: State, w: nat)
    requires Inv(s) && Enabled(s, Dequeue(w, true))
    ensures WorkersOk(Fetch(s, w))
  {
    var t, q := Fetch(s, w), s.queue[|s.queue| - 1];
    assert IsQueryOf(s, q) && s.chans[q.chan].taker.None?;
    forall v | v in s.workers ensures s.workers[v].query.chan != q.chan {
      assert s.chans[s.workers[v].query.chan].taker.Some?;
    }
  }

  lemma ChansAfterPop(s: State, w: nat, d: nat)
    requires Inv(s) && Enabled(s, Dequeue(w, true)) && d in s.chans
    ensures var t := Fetch(s, w); ClientOk(d, t.chans[d]) && JobOk(t.chans[d], StageOf(t, d))
  {
    var t, q := Fetch(s, w), s.queue[|s.queue| - 1];
    assert ClientOk(d, s.chans[d]) && JobOk(s.chans[d], StageOf(s, d));
    assert IsQueryOf(s, q) && s.chans[q.chan].taker.None?;
    if d == q.chan {
      assert StageOf(t, d) == Some(Fetched(q));
    } else {
      assert StageOf(t, d) == StageOf(s, d);
    }
  }

  lemma KeepsFetched(s: State, w: nat)
    requires Inv(s) && Enabled(s, Dequeue(w, true))
    ensures Inv(Fetch(s, w))
  {
    QueueAfterPop(s, w);
    WorkersAfterPop(s, w);
    forall d | d in s.chans
      ensures var t := Fetch(s, w); ClientOk(d, t.chans[d]) && JobOk(t.chans[d], StageOf(t, d))
    {
      ChansAfterPop(s, w, d);
    }
  }

  lemma KeepsDequeue(s: State, w: nat, decodes: bool)
    requires Inv(s) && Enabled(s, Dequeue(w, decodes))
    ensures Inv(AfterDequeue(s, w, decodes))
  {
    KeepsFetched(s, w);
    var t := Fetch(s, w);
    if !decodes {
      StageOfWorker(t, w);
      KeepsDiscarded(t, w);
    }
  }

  lemma KeepsDiscarded(s: State, w: nat)
    requires Inv(s) && AtStage(s, w) && !s.workers[w].Publishing?
    ensures Inv(Finish(s, w, s.workers[w].query.chan, Discarded(Garbled)))
  {
    var c := s.workers[w].query.chan;
    var t := Finish(s, w, c, Discarded(Garbled));
    StageOfWorker(s, w);
    assert WorkerMoves(s, t, c, w);
    OneChanKept(s, t, c, t.chans[c]);
  }

  lemma KeepsInv(s: State, step: Step)
    requires Inv(s) && Enabled(s, step)
    ensures Inv(After(s, step))
  {
    match step
    case Subscribe(args) => KeepsSubscribe(s, args);
    case Push(c, ok) => KeepsPush(s, c, ok);
    case Dequeue(w, decodes) => KeepsDequeue(s, w, decodes);
    case CheckListener(w, ok) => KeepsCheck(s, w, ok);
    case Run(w, outcome) => KeepsRun(s, w, outcome);
    case SetResult(w, ok) =>
      if ok { KeepsSet(s, w); } else { KeepsAttemptFailed(s, w); }
    case Notify(w, ok) =>
      if ok { KeepsNotify(s, w); } else { KeepsAttemptFailed(s, w); }
    case Receive(c) => KeepsReceive(s, c);
    case Get(c, ok, decodes) => KeepsEmit(s, c, Lookup(s, s.chans[c].client.payload, ok, decodes));
    case TimeOut(c) => KeepsEmit(s, c, TimedOut);
    case Close(c) => KeepsClose(s, c);
    case Expire(c) => KeepsExpire(s, c);
  }

  lemma {:induction false} LeadsKeepsInv(s: State, steps: seq<Step>, t: State)
    requires Inv(s) && Leads(s, steps, t)
    ensures Inv(t)
    decreases |steps|
  {
    if steps != [] {
      KeepsInv(s, steps[0]);
      LeadsKeepsInv(After(s, steps[0]), steps[1..], t);
    }
  }

  lemma ReachableIsInv(s: State)
    requires Reachable(s)
    ensures Inv(s)
  {
    var steps :| Leads(INITIAL, steps, s);
    LeadsKeepsInv(INITIAL, steps, s);
  }

  // ----- what holds in every reachable state -----

  predicate Queued(s: State, q: Query) {
    q in s.queue
  }

  predicate HeldBy(s: State, q: Query, w: nat) {
    w in s.workers && s.workers[w].query == q
  }

  predicate Finished(s: State, q: Query) {
    q.chan in s.chans && s.chans[q.chan].fate.Some?
  }

  /** Job conservation: each pushed query is queued, held by one worker or finished, and nothing else. */
  lemma JobConservation(s: State, q: Query)
    requires Reachable(s) && q in s.pushed
    ensures Queued(s, q) || Finished(s, q) || exists w :: HeldBy(s, q, w)
    ensures !(Queued(s, q) && Finished(s, q))
    ensures forall w | HeldBy(s, q, w) :: !Queued(s, q) && !Finished(s, q)
    ensures forall v, w | HeldBy(s, q, v) && HeldBy(s, q, w) :: v == w
    ensures q.chan in s.chans && s.chans[q.chan].runs <= 1
  {
    ReachableIsInv(s);
    var i :| 0 <= i < |s.pushed| && s.pushed[i] == q;
    assert IsQueryOf(s, q);
    var r := s.chans[q.chan];
    assert JobOk(r, StageOf(s, q.chan));
    if i < |s.popped| {
      assert s.popped[i] == q;
      if r.fate.None? {
        assert HeldBy(s, q, r.taker.value);
      }
    } else {
      assert q in Reverse(s.queue);
      ReverseMembers(s.queue, q);
    }
    forall w | HeldBy(s, q, w) ensures !Queued(s, q) && !Finished(s, q) {
      StageOfWorker(s, w);
    }
  }

  /** First in, first out: the popped queries are the oldest pushed ones, in push order. */
  lemma FirstInFirstOut(s: State)
    requires Reachable(s)
    ensures s.popped <= s.pushed && |s.popped| + |s.queue| == |s.pushed|
    ensures s.queue != [] ==> s.queue[|s.queue| - 1] == s.pushed[|s.popped|]
  {
    ReachableIsInv(s);
    if s.queue != [] {
      PopsOldest(s);
    }
  }

  /** The goroutine waiting for a query sends at most one value, and has sent exactly one when it closes
      its channel: what the backend returned for this very query, or an error. It is the timeout if no
      notification was sent. */
  lemma SingleCorrelatedAnswer(s: State, c: nat)
    requires Reachable(s) && c in s.chans
    ensures |s.chans[c].emitted| <= 1
    ensures s.chans[c].client.Closed? ==> |s.chans[c].emitted| == 1
    ensures forall r | Delivered(r) in s.chans[c].emitted ::
              && r.query == s.chans[c].client.query
              && (r.value.Error? || s.chans[c].outcome == Some(Returns(r.value)))
    ensures s.chans[c].sent == 0 ==> forall a | a in s.chans[c].emitted :: a == TimedOut
  {
    ReachableIsInv(s);
    assert ClientOk(c, s.chans[c]);
  }

  /** A pending or received notification means that the result is stored under the key it names, unless
      it expired since; and there is at most one. */
  lemma SetBeforeNotify(s: State, c: nat)
    requires Reachable(s) && c in s.chans
    ensures s.chans[c].mail != [] ==> s.chans[c].mail == [c] && Kept(s.chans[c])
    ensures s.chans[c].client.Notified? ==> s.chans[c].client.payload == c && Kept(s.chans[c])
    ensures s.chans[c].sent <= 1
  {
    ReachableIsInv(s);
    assert ClientOk(c, s.chans[c]) && JobOk(s.chans[c], StageOf(s, c));
  }

  /** The value that a client is delivered, given how the run of its query ended and which attempt of the
      worker succeeded: what the backend returned if the first one did. */
  lemma DeliveredValue(s: State, c: nat, r: WorkerResult)
    requires Reachable(s) && c in s.chans && Delivered(r) in s.chans[c].emitted
    ensures s.chans[c].outcome.Some? && s.chans[c].fate.Some? && s.chans[c].fate.value.Replied?
    ensures var tries := s.chans[c].fate.value.tries;
            match s.chans[c].outcome.value
            case Returns(v) =>
              1 <= tries <= 3 &&
              r.value == if tries == 1 then v else if tries == 2 then Error(NotPublished) else Error(WorkerFailure)
            case UnknownArgs =>
              1 <= tries <= 2 && r.value == if tries == 1 then Error(UnknownFunction) else Error(WorkerFailure)
            case Panics => tries == 1 && r.value == Error(WorkerFailure)
  {
    ReachableIsInv(s);
    assert ClientOk(c, s.chans[c]) && JobOk(s.chans[c], StageOf(s, c));
  }

  /** What a notified client emits: a failed or late lookup and an undecodable result are reported as such,
      and otherwise its own result is delivered. */
  lemma LookupAnswers(s: State, c: nat, ok: bool, decodes: bool)
    requires Reachable(s) && c in s.chans && s.chans[c].client.Notified?
    ensures s.chans[c].stored.None? <==> s.chans[c].expired
    ensures var r, t := s.chans[c], After(s, Get(c, ok, decodes));
            && |t.chans[c].emitted| == 1
            && var a := t.chans[c].emitted[0];
               if !ok || r.stored.None? then a == LookupFailed
               else if !decodes then a == Undecodable
               else a == Delivered(r.stored.value) && a.result.query == r.client.query
  {
    SetBeforeNotify(s, c);
    ReachableIsInv(s);
    assert ClientOk(c, s.chans[c]) && JobOk(s.chans[c], StageOf(s, c));
  }

  /** A client that was notified and looks its result up before the key expires gets its own result. */
  lemma LookupSucceedsBeforeExpiry(s: State, c: nat)
    requires Reachable(s) && c in s.chans && s.chans[c].client.Notified? && !s.chans[c].expired
    ensures var t := After(s, Get(c, true, true));
            && |t.chans[c].emitted| == 1 && t.chans[c].emitted[0].Delivered?
            && t.chans[c].emitted[0].result.query == s.chans[c].client.query
  {
    LookupAnswers(s, c, true, true);
  }

  /** A notification that was sent while the client waits is there for it to receive. */
  lemma NotificationArrives(s: State, c: nat)
    requires Reachable(s) && c in s.chans && s.chans[c].client.Waiting? && s.chans[c].sent == 1
    ensures s.chans[c].mail == [c]
  {
    ReachableIsInv(s);
    assert ClientOk(c, s.chans[c]);
  }

  /** A query whose listeners can be counted is run if its client has not closed the channel, and dropped if
      it has. */
  lemma ListenerDecides(s: State, w: nat)
    requires Reachable(s) && w in s.workers && s.workers[w].Fetched?
    ensures Enabled(s, CheckListener(w, true))
    ensures var t, q := After(s, CheckListener(w, true)), s.workers[w].query;
            && q.chan in s.chans && q.chan in t.chans
            && if s.chans[q.chan].client.Closed?
               then w !in t.workers && t.chans[q.chan].fate == Some(Discarded(NobodyListens))
               else w in t.workers && t.workers[w] == Running(q)
  {
    ReachableIsInv(s);
    StageOfWorker(s, w);
  }

  /** Once past the listener check, a worker makes one to three publish attempts for a query, fewer if the
      run did not return; the query ends as replied exactly when one notification was sent, and is given up
      after the last attempt only. A query is dropped for want of a listener only if its client closed. */
  lemma BoundedPublication(s: State, c: nat)
    requires Reachable(s) && c in s.chans && s.chans[c].fate.Some?
    ensures var r, fate := s.chans[c], s.chans[c].fate.value;
            && (fate.Discarded? <==> r.runs == 0)
            && (fate == Discarded(NobodyListens) ==> r.client.Closed?)
            && (!fate.Discarded? ==>
                  && r.outcome.Some?
                  && var most := if r.outcome.value.Returns? then 3 else if r.outcome.value.Panics? then 1 else 2;
                     1 <= fate.tries <= most && (fate.GaveUp? ==> fate.tries == most))
            && r.sent == if fate.Replied? then 1 else 0
  {
    ReachableIsInv(s);
    assert JobOk(s.chans[c], StageOf(s, c));
  }
}
