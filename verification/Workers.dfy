/** The code of the worker (worker/worker.go) and of the waiting client (rdb/client.go) run against the
    transition system: every Redis command is one step, and between any two commands all other clients
    and workers may take any number of steps. */
module Workers {
  import opened Protocol
  import opened Wrappers

  datatype Actor = Worker(id: nat) | Client(chan: nat)

  predicate IsStepOf(step: Step, a: Actor) {
    match step
    case Subscribe(_) => false
    case Expire(_) => false
    case Dequeue(w, _) => a == Worker(w)
    case CheckListener(w, _) => a == Worker(w)
    case Run(w, _) => a == Worker(w)
    case SetResult(w, _) => a == Worker(w)
    case Notify(w, _) => a == Worker(w)
    case Push(c, _) => a == Client(c)
    case Receive(c) => a == Client(c)
    case Get(c, _, _) => a == Client(c)
    case TimeOut(c) => a == Client(c)
    case Close(c) => a == Client(c)
  }

  /** The history only grows. */
  predicate Later(s: State, t: State) {
    s.pushed <= t.pushed && s.popped <= t.popped
  }

  /** What the others can never change: what an actor is doing is its own. */
  predicate Unaffected(s: State, t: State, a: Actor) {
    && Later(s, t)
    && match a
       case Worker(w) =>
         && (w in s.workers <==> w in t.workers)
         && (w in s.workers ==> t.workers[w] == s.workers[w])
       case Client(c) =>
         c in s.chans ==>
           && c in t.chans && t.chans[c].client == s.chans[c].client
           && t.chans[c].emitted == s.chans[c].emitted
  }

  lemma {:induction false} OneMoreStep(s: State, steps: seq<Step>, t: State, step: Step)
    requires Leads(s, steps, t) && Enabled(t, step)
    ensures Leads(s, steps + [step], After(t, step))
    decreases |steps|
  {
    if steps != [] {
      OneMoreStep(After(s, steps[0]), steps[1..], t, step);
      assert (steps + [step])[1..] == steps[1..] + [step];
    } else {
      assert (steps + [step])[1..] == [];
    }
  }

  lemma StillReachable(s: State, step: Step)
    requires Reachable(s) && Enabled(s, step)
    ensures Reachable(After(s, step))
  {
    var steps :| Leads(INITIAL, steps, s);
    OneMoreStep(INITIAL, steps, s, step);
  }

  lemma StageKnown(s: State, w: nat)
    requires Reachable(s) && w in s.workers
    ensures AtStage(s, w)
  {
    ReachableIsInv(s);
    StageOfWorker(s, w);
  }

  lemma OldestKnown(s: State)
    requires Reachable(s) && s.queue != []
    ensures s.queue[|s.queue| - 1].chan in s.chans
  {
    ReachableIsInv(s);
    assert IsQueryOf(s, s.queue[|s.queue| - 1]);
  }

  lemma HistoryGrows(s: State, step: Step)
    requires Enabled(s, step)
    ensures s.pushed <= After(s, step).pushed && s.popped <= After(s, step).popped
  {
  }

  lemma OtherWorkerStays(s: State, step: Step, w: nat)
    requires Enabled(s, step) && !IsStepOf(step, Worker(w))
    ensures w in s.workers <==> w in After(s, step).workers
    ensures w in s.workers ==> After(s, step).workers[w] == s.workers[w]
  {
  }

  lemma OtherClientStays(s: State, step: Step, c: nat)
    requires Enabled(s, step) && !IsStepOf(step, Client(c)) && c in s.chans && c < s.next
    ensures var t := After(s, step);
            c in t.chans && t.chans[c].client == s.chans[c].client && t.chans[c].emitted == s.chans[c].emitted
  {
  }

  lemma NamesBelowNext(s: State, c: nat)
    requires Reachable(s)
    ensures c in s.chans <==> c < s.next
  {
    ReachableIsInv(s);
  }

  lemma OthersLeaveAlone(s: State, step: Step, a: Actor)
    requires Reachable(s) && Enabled(s, step) && !IsStepOf(step, a)
    ensures Unaffected(s, After(s, step), a)
  {
    HistoryGrows(s, step);
    match a
    case Worker(w) => OtherWorkerStays(s, step, w);
    case Client(c) =>
      NamesBelowNext(s, c);
      if c in s.chans {
        OtherClientStays(s, step, c);
      }
  }

  /** How a worker leaves one publish attempt behind. */
  predicate AttemptLeft(st: Stage, t: State, w: nat, ok: bool)
    requires st.Publishing?
  {
    var next := NextPlan(st.plan);
    if !ok && next.Some? then
      w in t.workers && t.workers[w] == Publishing(st.query, next.value, st.tries + 1, false)
    else
      && w !in t.workers && st.query.chan in t.chans
      && t.chans[st.query.chan].fate == Some(if ok then Replied(st.tries) else GaveUp(st.tries))
  }

  /** How the protected run ends: with an answer sent, or with only the last attempt left. */
  predicate RunLeft(q: Query, t: State, w: nat, failed: bool) {
    if failed then
      w in t.workers && t.workers[w].query == q && t.workers[w].Publishing?
      && t.workers[w].plan == LastResort && !t.workers[w].stored
    else
      w !in t.workers && q.chan in t.chans && t.chans[q.chan].fate.Some? && t.chans[q.chan].fate.value.Replied?
  }

  lemma RunStarts(s: State, w: nat, outcome: Outcome)
    requires Enabled(s, Run(w, outcome))
    ensures var t := AfterRun(s, w, outcome);
            w in t.workers && t.workers[w] == Publishing(s.workers[w].query, FirstPlan(outcome), 1, false)
  {
  }

  /** After a successful count the worker goes on exactly if the client has not closed its channel. */
  lemma CheckLeaves(s: State, w: nat, ok: bool)
    requires Reachable(s) && w in s.workers && s.workers[w].Fetched?
    ensures Enabled(s, CheckListener(w, ok))
    ensures var t, q := AfterCheck(s, w, ok), s.workers[w].query;
            && q.chan in s.chans && q.chan in t.chans
            && if ok && !s.chans[q.chan].client.Closed? then w in t.workers && t.workers[w] == Running(q)
               else w !in t.workers && DroppedFor(t, q, if ok then NobodyListens else NotCounted)
  {
    StageKnown(s, w);
    ListenerDecides(s, w);
  }

  predicate DroppedFor(s: State, q: Query, cause: Cause) {
    q.chan in s.chans && s.chans[q.chan].fate == Some(Discarded(cause))
  }

  /** A query that a worker has finished with was answered or given up, or it was dropped: because it could
      not be decoded, because its listeners could not be counted, or because its client had closed. */
  predicate Handled(s: State, q: Query, decodes: bool, counted: bool) {
    && Finished(s, q)
    && (DroppedFor(s, q, Garbled) ==> !decodes)
    && (DroppedFor(s, q, NotCounted) ==> !counted)
    && (DroppedFor(s, q, NobodyListens) ==> s.chans[q.chan].client.Closed?)
  }

  lemma DroppedIsClosed(s: State, q: Query)
    requires Reachable(s)
    ensures DroppedFor(s, q, NobodyListens) ==> s.chans[q.chan].client.Closed?
  {
    if DroppedFor(s, q, NobodyListens) {
      BoundedPublication(s, q.chan);
    }
  }

  lemma FailedSetLeaves(s: State, w: nat)
    requires Enabled(s, SetResult(w, false))
    ensures AttemptLeft(s.workers[w], AfterSet(s, w, false), w, false)
  {
  }

  lemma NotifyLeaves(s: State, w: nat, ok: bool)
    requires Enabled(s, Notify(w, ok))
    ensures AttemptLeft(s.workers[w].(stored := false), AfterNotify(s, w, ok), w, ok)
  {
  }

  predicate PoppedLater(s: State, t: State, q: Query) {
    exists k :: |s.popped| <= k < |t.popped| && t.popped[k] == q
  }

  /** The pop records the oldest query; one that cannot be decoded is finished with it. */
  lemma PopLeaves(s: State, w: nat, decodes: bool)
    requires Enabled(s, Dequeue(w, decodes))
    ensures var t, q := AfterDequeue(s, w, decodes), s.queue[|s.queue| - 1];
            && t.popped == s.popped + [q] && t.pushed == s.pushed
            && if decodes then w in t.workers && t.workers[w] == Fetched(q)
               else w !in t.workers && DroppedFor(t, q, Garbled)
  {
  }

  class World {
    var state: State

    constructor ()
      ensures state == INITIAL && Reachable(state)
    {
      state := INITIAL;
      assert Leads(INITIAL, [], INITIAL);
    }

    method Do(step: Step)
      requires Reachable(state) && Enabled(state, step)
      modifies this
      ensures state == After(old(state), step) && Reachable(state)
    {
      StillReachable(state, step);
      state := After(state, step);
    }

    /** Any number of steps of anybody else, in any order. */
    method Interfere(a: Actor)
      requires Reachable(state)
      modifies this
      ensures Reachable(state) && Unaffected(old(state), state, a)
    {
      var n: int := *;
      while n > 0
        invariant Reachable(state) && Unaffected(old(state), state, a)
      {
        n := n - 1;
        var step: Step := *;
        if Enabled(state, step) && !IsStepOf(step, a) {
          OthersLeaveAlone(state, step, a);
          Do(step);
        }
      }
    }
  }

  // ----- the pop (rdb/client.go) -----

  /** What the Redis client hands back for a pop. The value is missing unless something was popped. */
  datatype PopReply = PopReply(val: Option<Query>, error: Option<PopError>)

  datatype PopError = NoValue | NotReached

  /** An error never comes with a value. */
  predicate FromRedis(reply: PopReply) {
    reply.error.Some? ==> reply.val.None?
  }

  datatype Dequeued = EmptyQueue | PopFailed | Undecoded | Got(query: Query)

  /** The missing value is tested before the error: whatever error a failed pop reports, it is taken for
      an empty queue, and the test of the error never succeeds. */
  method DequeueQuery(reply: PopReply, decodes: bool) returns (dequeued: Dequeued)
    ensures dequeued.EmptyQueue? <==> reply.val.None?
    ensures FromRedis(reply) && reply.error.Some? ==> dequeued.EmptyQueue?
    ensures FromRedis(reply) ==> !dequeued.PopFailed?
    ensures dequeued.Got? <==> reply.val.Some? && reply.error.None? && decodes
    ensures dequeued.Got? ==> dequeued.query == reply.val.value
  {
    if reply.val.None? {
      return EmptyQueue;
    }
    if reply.error.Some? {
      return PopFailed;
    }
    return if decodes then Got(reply.val.value) else Undecoded;
  }

  // ----- the worker -----

  /** What really happened: the worker itself cannot tell the first two apart. */
  datatype Fetch = QueueEmpty | RedisFailed | Took(query: Query, decoded: bool, counted: bool)

  class WorkerProcess {
    const id: nat
    const world: World

    constructor (id: nat, world: World)
      ensures this.id == id && this.world == world
    {
      this.id, this.world := id, world;
    }

    /** Encodes, stores and announces what the plan of stage `st` says; any of the three may fail. */
    method PublishResult(ghost st: Stage) returns (ok: bool)
      requires Reachable(world.state) && id in world.state.workers && world.state.workers[id] == st
      requires st.Publishing? && !st.stored
      modifies world
      ensures Reachable(world.state) && Later(old(world.state), world.state)
      ensures AttemptLeft(st, world.state, id, ok)
    {
      StageKnown(world.state, id);
      var stored: bool := *;
      HistoryGrows(world.state, SetResult(id, stored));
      if !stored {
        FailedSetLeaves(world.state, id);
        world.Do(SetResult(id, false));
        return false;
      }
      world.Do(SetResult(id, true));
      assert world.state.workers[id] == st.(stored := true);
      world.Interfere(Worker(id));
      StageKnown(world.state, id);
      ok := *;
      NotifyLeaves(world.state, id, ok);
      HistoryGrows(world.state, Notify(id, ok));
      world.Do(Notify(id, ok));
      assert st.(stored := true).(stored := false) == st;
    }

    /** The function's result, or an error of its type if that could not be published. */
    method PublishFunctionResult(q: Query, v: Value) returns (failed: bool)
      requires Reachable(world.state) && id in world.state.workers
      requires world.state.workers[id] == Publishing(q, FunctionResult(v), 1, false)
      modifies world
      ensures Reachable(world.state) && Later(old(world.state), world.state)
      ensures RunLeft(q, world.state, id, failed)
    {
      var ok := PublishResult(Publishing(q, FunctionResult(v), 1, false));
      if ok {
        return false;
      }
      world.Interfere(Worker(id));
      ok := PublishResult(Publishing(q, FunctionError, 2, false));
      return !ok;
    }

    /** Runs the backend function and publishes its result. A panic is recovered; the returned flag asks
        the caller for a last attempt. */
    method RunQueryProtected(q: Query) returns (failed: bool)
      requires Reachable(world.state) && id in world.state.workers && world.state.workers[id] == Running(q)
      modifies world
      ensures Reachable(world.state) && Later(old(world.state), world.state)
      ensures RunLeft(q, world.state, id, failed)
    {
      StageKnown(world.state, id);
      var outcome: Outcome := *;
      HistoryGrows(world.state, Run(id, outcome));
      RunStarts(world.state, id, outcome);
      world.Do(Run(id, outcome));
      match outcome
      case Panics =>
        return true;
      case Returns(v) =>
        world.Interfere(Worker(id));
        failed := PublishFunctionResult(q, v);
      case UnknownArgs =>
        world.Interfere(Worker(id));
        var ok := PublishResult(Publishing(q, Unknown, 1, false));
        return !ok;
    }

    /** RPOP on the queue. Redis may be out of reach. */
    method Pop(decodes: bool) returns (reply: PopReply)
      requires Reachable(world.state) && id !in world.state.workers
      modifies world
      ensures Reachable(world.state) && FromRedis(reply)
      ensures reply.val.None? ==> world.state == old(world.state) && reply.error.Some?
      ensures reply.error == Some(NoValue) ==> world.state.queue == []
      ensures reply.val.Some? ==>
                && Enabled(old(world.state), Dequeue(id, decodes))
                && reply.val.value == old(world.state.queue[|world.state.queue| - 1]) && reply.error.None?
                && world.state == After(old(world.state), Dequeue(id, decodes))
    {
      var reached: bool := *;
      if !reached {
        return PopReply(None, Some(NotReached));
      }
      if world.state.queue == [] {
        return PopReply(None, Some(NoValue));
      }
      reply := PopReply(Some(world.state.queue[|world.state.queue| - 1]), None);
      OldestKnown(world.state);
      world.Do(Dequeue(id, decodes));
    }

    method TryNextQuery() returns (ghost fetched: Fetch)
      requires Reachable(world.state) && id !in world.state.workers
      modifies world
      ensures Reachable(world.state) && id !in world.state.workers
      ensures Later(old(world.state), world.state)
      ensures fetched.QueueEmpty? ==> old(world.state.pushed) <= world.state.popped
      ensures fetched.Took? ==> PoppedLater(old(world.state), world.state, fetched.query)
      ensures fetched.Took? ==> Handled(world.state, fetched.query, fetched.decoded, fetched.counted)
    {
      world.Interfere(Worker(id));
      ghost var before := world.state;
      var decodes: bool := *;
      var reply := Pop(decodes);
      var dequeued := DequeueQuery(reply, decodes);
      if dequeued.EmptyQueue? {
        FirstInFirstOut(world.state);
        fetched := if reply.error == Some(NoValue) then QueueEmpty else RedisFailed;
        return;
      }
      PopLeaves(before, id, decodes);
      ghost var counted := true;
      if dequeued.Got? {
        counted := RunTaken(dequeued.query);
      }
      fetched := Took(reply.val.value, decodes, counted);
      assert world.state.popped[|before.popped|] == fetched.query;
    }

    /** What follows a pop that could be decoded. */
    method RunTaken(q: Query) returns (ghost counted: bool)
      requires Reachable(world.state) && id in world.state.workers && world.state.workers[id] == Fetched(q)
      modifies world
      ensures Reachable(world.state) && id !in world.state.workers
      ensures Later(old(world.state), world.state)
      ensures Handled(world.state, q, true, counted)
    {
      world.Interfere(Worker(id));
      counted := RunFetched(q);
    }

    /** The error of the whole step, tried once. */
    method PublishLast(q: Query)
      requires Reachable(world.state) && RunLeft(q, world.state, id, true)
      modifies world
      ensures Reachable(world.state) && Later(old(world.state), world.state)
      ensures id !in world.state.workers && Finished(world.state, q)
      ensures !world.state.chans[q.chan].fate.value.Discarded?
    {
      var ok := PublishResult(world.state.workers[id]);
    }

    /** The listener check and everything behind it. */
    method RunFetched(q: Query) returns (ghost counted: bool)
      requires Reachable(world.state) && id in world.state.workers && world.state.workers[id] == Fetched(q)
      modifies world
      ensures Reachable(world.state) && id !in world.state.workers
      ensures Later(old(world.state), world.state)
      ensures Handled(world.state, q, true, counted)
    {
      var ok: bool := *;
      counted := ok;
      CheckLeaves(world.state, id, ok);
      HistoryGrows(world.state, CheckListener(id, ok));
      world.Do(CheckListener(id, ok));
      DroppedIsClosed(world.state, q);
      if id !in world.state.workers {
        return;
      }
      world.Interfere(Worker(id));
      var failed := RunQueryProtected(q);
      if failed {
        world.Interfere(Worker(id));
        PublishLast(q);
      }
    }

    /** The event loop, woken by the ticker alone. Whatever the other clients push meanwhile and however
        the jobs end, each tick pops one query or finds that everything that was queued at the start
        has been popped; only a failing Redis delays that. */
    method Start(ticks: nat) returns (ghost failures: nat)
      requires Reachable(world.state) && id !in world.state.workers
      modifies world
      ensures Reachable(world.state) && id !in world.state.workers
      ensures old(world.state.popped) <= world.state.popped && old(world.state.pushed) <= world.state.pushed
      ensures failures <= ticks
      ensures ticks >= failures + |old(world.state.queue)| ==> old(world.state.pushed) <= world.state.popped
    {
      failures := 0;
      FirstInFirstOut(world.state);
      for i := 0 to ticks
        invariant Reachable(world.state) && id !in world.state.workers
        invariant old(world.state.popped) <= world.state.popped && old(world.state.pushed) <= world.state.pushed
        invariant failures <= i
        invariant || old(world.state.pushed) <= world.state.popped
                  || |world.state.popped| + failures >= |old(world.state.popped)| + i
      {
        ghost var fetched := TryNextQuery();
        failures := if fetched.RedisFailed? then failures + 1 else failures;
      }
      FirstInFirstOut(world.state);
    }
  }

  // ----- the client -----

  lemma AnsweredOnce(s: State, c: nat)
    requires Reachable(s) && c in s.chans && s.chans[c].client.Answered?
    ensures |s.chans[c].emitted| == 1 && Proper(s.chans[c], s.chans[c].emitted[0])
  {
    ReachableIsInv(s);
    assert ClientOk(c, s.chans[c]);
  }

  class ClientProcess {
    const world: World

    constructor (world: World)
      ensures this.world == world
    {
      this.world := world;
    }

    /** Subscribes to a fresh channel and pushes the query; announcing it to the workers changes nothing
        in the state. */
    method PublishQuery(args: int) returns (chan: nat, ok: bool)
      requires Reachable(world.state)
      modifies world
      ensures Reachable(world.state) && chan in world.state.chans && chan !in old(world.state.chans)
      ensures world.state.chans[chan].client == if ok then Waiting(Query(chan, args)) else Abandoned(Query(chan, args))
      ensures ok ==> Query(chan, args) in world.state.pushed
    {
      chan := world.state.next;
      NamesBelowNext(world.state, chan);
      world.Do(Subscribe(args));
      assert world.state.chans[chan].client == Subscribed(Query(chan, args));
      world.Interfere(Client(chan));
      ok := *;
      world.Do(Push(chan, ok));
      if ok {
        assert world.state.pushed[|world.state.pushed| - 1] == Query(chan, args);
      }
    }

    /** The waiting goroutine sends one value, for the first message or for the timeout, and closes the
        channel. When both are ready either may win: a message that is there at a look need not be taken
        by it, and more may arrive before the timer, which fires after `patience` looks. */
    method AwaitAnswer(chan: nat, patience: nat) returns (answer: Answer)
      requires Reachable(world.state) && chan in world.state.chans && world.state.chans[chan].client.Waiting?
      modifies world
      ensures Reachable(world.state) && chan in world.state.chans && world.state.chans[chan].client.Closed?
      ensures world.state.chans[chan].emitted == [answer]
      ensures world.state.chans[chan].client.query == old(world.state.chans[chan].client.query)
      ensures answer.Delivered? ==>
                && answer.result.query == old(world.state.chans[chan].client.query)
                && IsReply(world.state.chans[chan], answer.result.value)
                && (|| answer.result.value.Error?
                    || world.state.chans[chan].outcome == Some(Returns(answer.result.value)))
    {
      var left := patience;
      while left > 0
        invariant Reachable(world.state) && chan in world.state.chans
        invariant world.state.chans[chan].client == old(world.state.chans[chan].client)
      {
        world.Interfere(Client(chan));
        left := left - 1;
        var looks: bool := *;
        if looks && world.state.chans[chan].mail != [] {
          world.Do(Receive(chan));
          world.Interfere(Client(chan));
          var ok: bool, decodes: bool := *, *;
          world.Do(Get(chan, ok, decodes));
          answer := CloseAfter(chan);
          return;
        }
      }
      world.Interfere(Client(chan));
      world.Do(TimeOut(chan));
      answer := CloseAfter(chan);
    }

    method CloseAfter(chan: nat) returns (answer: Answer)
      requires Reachable(world.state) && chan in world.state.chans && world.state.chans[chan].client.Answered?
      modifies world
      ensures Reachable(world.state) && chan in world.state.chans
      ensures world.state.chans[chan].client == Closed(old(world.state.chans[chan].client.query))
      ensures world.state.chans[chan].emitted == [answer] && Proper(world.state.chans[chan], answer)
    {
      world.Interfere(Client(chan));
      AnsweredOnce(world.state, chan);
      answer := world.state.chans[chan].emitted[0];
      world.Do(Close(chan));
    }
  }
}
