/** The stream registry as a sequential state machine. Every queue ever created
    lives in `queues` under its own handle, and `streams` maps each registered
    workflow id to the handle of its current queue, so a consumer keeps draining
    the queue it was created with even after the registry forgets the id (`None`
    in a queue is the termination signal). `states` holds each registered
    workflow's `StreamingState`. A queue bound of zero or less means an unbounded
    queue, as with `asyncio.Queue(maxsize=...)`. */
module StreamingCoordinator {
  import opened Wrappers
  import opened Streaming

  type Queue = seq<Option<Event>>

  datatype Registry = Registry(
    streams: map<string, nat>,
    queues: map<nat, Queue>,
    states: map<string, StreamingState>,
    /** The handle the next created queue gets. */
    nextQueue: nat,
    maxQueueSize: int,
    heartbeatInterval: int)
  {
    /** `put_nowait` would raise `QueueFull`. */
    predicate Full(q: Queue) {
      maxQueueSize > 0 && |q| >= maxQueueSize
    }

    /** The queue a registered workflow's events go to. */
    function QueueOf(workflowId: string): Queue
      requires workflowId in streams
    {
      if streams[workflowId] in queues then queues[streams[workflowId]] else []
    }

    /** The two maps of registered workflows have the same keys, every registered
        workflow owns a queue of its own, handles are below `nextQueue`, and no
        queue is over its bound. */
    predicate Valid() {
      && streams.Keys == states.Keys
      && (forall id :: id in streams ==> streams[id] in queues)
      && (forall a, b :: a in streams && b in streams && streams[a] == streams[b] ==> a == b)
      && (forall h :: h in queues ==> h < nextQueue)
      && (forall h :: h in queues ==> maxQueueSize <= 0 || |queues[h]| <= maxQueueSize)
    }

    /** The coordinator itself never advances a workflow's step counter or tool list. */
    predicate CountersUntouched() {
      forall id :: id in states ==> states[id].stepCounter == 0 && states[id].toolsUsed == []
    }
  }

  const CleanupAge: int := 3600

  /** `StreamingCoordinator()` with its default bounds. */
  function NewRegistry(): (r: Registry)
    ensures r.Valid() && r.CountersUntouched()
    ensures r.streams == map[] && r.maxQueueSize == 1000 && r.heartbeatInterval == 30
  {
    Registry(map[], map[], map[], 0, 1000, 30)
  }

  /** `get_active_stream_count`: the number of registered workflows. */
  function ActiveCount(r: Registry): (n: nat)
    ensures n == 0 <==> r.streams == map[]
  {
    assert r.streams == map[] <==> r.streams.Keys == {};
    |r.streams.Keys|
  }

  /** `is_stream_active`: the workflow is registered, so at least one is. */
  function IsActive(r: Registry, workflowId: string): (b: bool)
    ensures b ==> ActiveCount(r) > 0
  {
    workflowId in r.streams
  }

  // ---------------------------------------------------------------------------
  // Queue operations
  // ---------------------------------------------------------------------------

  /** `emit_event`: appends the event at the tail of the workflow's queue and marks
      activity, or reports false when the workflow is unregistered or its queue
      is full. */
  function Emit(r: Registry, workflowId: string, e: Event, now: Time): (res: (Registry, bool))
    ensures !res.1 <==> workflowId !in r.streams || r.Full(r.QueueOf(workflowId))
    ensures !res.1 ==> res.0 == r
    ensures res.1 ==>
      && res.0.streams == r.streams
      && res.0.queues == r.queues[r.streams[workflowId] := r.QueueOf(workflowId) + [Some(e)]]
      && res.0.states.Keys == r.states.Keys
      && (workflowId in r.states ==> res.0.states[workflowId] == MarkActivity(r.states[workflowId], now))
      && (forall id :: id in r.states && id != workflowId ==> res.0.states[id] == r.states[id])
    ensures res.0.nextQueue == r.nextQueue
    ensures res.0.maxQueueSize == r.maxQueueSize && res.0.heartbeatInterval == r.heartbeatInterval
    ensures r.Valid() ==> res.0.Valid()
    ensures r.CountersUntouched() ==> res.0.CountersUntouched()
  {
    if workflowId !in r.streams || r.Full(r.QueueOf(workflowId)) then (r, false)
    else
      var states := if workflowId in r.states then r.states[workflowId := MarkActivity(r.states[workflowId], now)] else r.states;
      (r.(queues := r.queues[r.streams[workflowId] := r.QueueOf(workflowId) + [Some(e)]], states := states), true)
  }

  /** `_terminate_stream`: enqueues the termination signal when there is room. */
  function Terminate(r: Registry, workflowId: string): (r': Registry)
    ensures workflowId in r.streams && !r.Full(r.QueueOf(workflowId)) ==>
      r' == r.(queues := r.queues[r.streams[workflowId] := r.QueueOf(workflowId) + [None]])
    ensures workflowId !in r.streams || r.Full(r.QueueOf(workflowId)) ==> r' == r
    ensures r.Valid() ==> r'.Valid()
  {
    if workflowId in r.streams && !r.Full(r.QueueOf(workflowId))
    then r.(queues := r.queues[r.streams[workflowId] := r.QueueOf(workflowId) + [None]])
    else r
  }

  /** `_cleanup_stream`: forgets the workflow in both maps of registered
      workflows; the queue itself stays with whoever holds it. */
  function Cleanup(r: Registry, workflowId: string): (r': Registry)
    ensures workflowId !in r'.streams && workflowId !in r'.states
    ensures r'.streams.Keys == r.streams.Keys - {workflowId}
    ensures r'.states.Keys == r.states.Keys - {workflowId}
    ensures forall id :: id in r'.streams ==> r'.streams[id] == r.streams[id]
    ensures forall id :: id in r'.states ==> r'.states[id] == r.states[id]
    ensures r'.queues == r.queues && r'.nextQueue == r.nextQueue
    ensures r.Valid() ==> r'.Valid()
    ensures r.CountersUntouched() ==> r'.CountersUntouched()
  {
    r.(streams := r.streams - {workflowId}, states := r.states - {workflowId})
  }

  /** Cleaning up twice is cleaning up once, and emitting afterwards fails. */
  lemma CleanupIdempotent(r: Registry, workflowId: string, e: Event, now: Time)
    ensures Cleanup(Cleanup(r, workflowId), workflowId) == Cleanup(r, workflowId)
    ensures Emit(Cleanup(r, workflowId), workflowId, e, now) == (Cleanup(r, workflowId), false)
  {
  }

  // ---------------------------------------------------------------------------
  // Registration and the consumer
  // ---------------------------------------------------------------------------

  /** The generator `create_stream` hands out: the workflow it streams and the
      queue it captured when it registered. */
  datatype Consumer = Consumer(workflowId: string, queue: nat)

  /** The registration half of `create_stream`: a duplicate id changes nothing and
      yields no consumer; otherwise a fresh queue and a fresh state are registered,
      the start event is emitted, and the consumer holds the new queue. */
  function CreateStream(r: Registry, workflowId: string, initialPrompt: string, now: Time): (res: (Registry, Option<Consumer>))
    ensures workflowId in r.streams ==> res == (r, None)
    ensures workflowId !in r.streams ==>
      && res.1 == Some(Consumer(workflowId, r.nextQueue))
      && res.0.streams == r.streams[workflowId := r.nextQueue]
      && res.0.queues == r.queues[r.nextQueue := [Some(NewWorkflowStarted(workflowId, now, initialPrompt))]]
      && res.0.states == r.states[workflowId := NewState(workflowId, now).(eventCount := 1)]
      && res.0.nextQueue == r.nextQueue + 1
    ensures res.0.maxQueueSize == r.maxQueueSize
    ensures r.Valid() ==> res.0.Valid()
    ensures r.CountersUntouched() ==> res.0.CountersUntouched()
  {
    if workflowId in r.streams then (r, None)
    else
      var start := NewWorkflowStarted(workflowId, now, initialPrompt);
      EmitStart(r, workflowId, start, now);
      (Emit(Register(r, workflowId, now), workflowId, start, now).0, Some(Consumer(workflowId, r.nextQueue)))
  }

  /** Emitting the start event into a freshly registered, empty queue succeeds. */
  lemma EmitStart(r: Registry, workflowId: string, start: Event, now: Time)
    requires workflowId !in r.streams
    ensures var r' := Emit(Register(r, workflowId, now), workflowId, start, now).0;
      && r'.streams == r.streams[workflowId := r.nextQueue]
      && r'.queues == r.queues[r.nextQueue := [Some(start)]]
      && r'.states == r.states[workflowId := NewState(workflowId, now).(eventCount := 1)]
      && r'.nextQueue == r.nextQueue + 1 && r'.maxQueueSize == r.maxQueueSize
  {
    var registered := Register(r, workflowId, now);
    var r' := Emit(registered, workflowId, start, now).0;
    assert r'.queues == r.queues[r.nextQueue := [Some(start)]] by {
      assert registered.QueueOf(workflowId) + [Some(start)] == [Some(start)];
    }
    assert r'.states == r.states[workflowId := NewState(workflowId, now).(eventCount := 1)] by {
      assert r'.states == registered.states[workflowId := MarkActivity(NewState(workflowId, now), now)];
    }
  }

  /** The first half of registering: an empty queue under a fresh handle and a
      fresh state. */
  function Register(r: Registry, workflowId: string, now: Time): (r': Registry)
    requires workflowId !in r.streams
    ensures r'.streams == r.streams[workflowId := r.nextQueue]
    ensures r'.queues == r.queues[r.nextQueue := []]
    ensures r'.states == r.states[workflowId := NewState(workflowId, now)]
    ensures r'.nextQueue == r.nextQueue + 1 && r'.maxQueueSize == r.maxQueueSize
    ensures r.Valid() ==> r'.Valid()
    ensures r.CountersUntouched() ==> r'.CountersUntouched()
  {
    var h := r.nextQueue;
    var r' := r.(streams := r.streams[workflowId := h], queues := r.queues[h := []],
                 states := r.states[workflowId := NewState(workflowId, now)], nextQueue := h + 1);
    assert r.Valid() ==> forall id :: id in r.streams ==> r.streams[id] != h;
    r'
  }

  /** Registering again under an id that was cleaned up gives the new consumer a
      queue of its own: an earlier consumer's queue is untouched. */
  lemma ReRegisterKeepsOldQueue(r: Registry, c: Consumer, initialPrompt: string, now: Time)
    requires r.Valid() && c.queue in r.queues && c.workflowId !in r.streams
    ensures var (r', c') := CreateStream(r, c.workflowId, initialPrompt, now);
      && c'.Some? && c'.value.workflowId == c.workflowId && c'.value.queue != c.queue
      && c.queue in r'.queues && r'.queues[c.queue] == r.queues[c.queue]
  {
  }

  /** What the consumer yields from a queue it drains: everything before the first
      termination signal, in order. */
  function Delivered(q: Queue): (es: seq<Event>)
    ensures |es| <= |q|
  {
    if |q| == 0 || q[0].None? then [] else [q[0].value] + Delivered(q[1..])
  }

  /** The queue holds no termination signal. */
  predicate Open(q: Queue) {
    forall i :: 0 <= i < |q| ==> q[i].Some?
  }

  /** Draining a queue with no signal in front delivers it all and goes on. */
  lemma {:induction false} DeliveredConcat(q: Queue, t: Queue)
    requires Open(q)
    ensures Delivered(q + t) == Delivered(q) + Delivered(t)
    decreases |q|
  {
    if |q| > 0 {
      assert (q + t)[1..] == q[1..] + t;
      DeliveredConcat(q[1..], t);
    } else {
      assert q + t == t;
    }
  }

  datatype Pull = Yielded(e: Event) | Ended | Waiting

  /** One turn of the consumer loop on its own queue: the next queued event is
      yielded; the termination signal ends the stream and cleans the id up; an
      empty queue ends it only when the id is no longer registered (the check
      after a `wait_for` timeout), and otherwise means waiting. */
  function ConsumeOne(r: Registry, c: Consumer): (res: (Registry, Pull))
    requires c.queue in r.queues
    ensures var q := r.queues[c.queue];
      && (res.1.Yielded? <==> |q| > 0 && q[0].Some?)
      && (res.1.Waiting? <==> q == [] && c.workflowId in r.streams)
      && (res.1.Yielded? ==>
            && res.1.e == q[0].value == Delivered(q)[0]
            && res.0 == r.(queues := r.queues[c.queue := q[1..]]))
      && (res.1.Waiting? ==> res.0 == r)
      && (res.1.Ended? ==>
            && Delivered(q) == []
            && res.0 == Cleanup(r.(queues := r.queues[c.queue := if q == [] then [] else q[1..]]), c.workflowId))
    ensures res.0.queues.Keys == r.queues.Keys
    ensures r.Valid() ==> res.0.Valid()
  {
    var q := r.queues[c.queue];
    if |q| == 0 then
      if c.workflowId in r.streams then (r, Waiting)
      else
        assert r.(queues := r.queues[c.queue := []]) == r;
        (Cleanup(r, c.workflowId), Ended)
    else if q[0].None? then (Cleanup(r.(queues := r.queues[c.queue := q[1..]]), c.workflowId), Ended)
    else (r.(queues := r.queues[c.queue := q[1..]]), Yielded(q[0].value))
  }

  /** The consumer's queue alone decides what it yields next: whether its workflow
      is still registered matters only once that queue is empty. */
  lemma ConsumeIgnoresRegistry(r: Registry, c: Consumer)
    requires c.queue in r.queues && r.queues[c.queue] != []
    ensures ConsumeOne(Cleanup(r, c.workflowId), c).1 == ConsumeOne(r, c).1
  {
  }

  /** Running the consumer loop until it ends or has to wait: the events yielded,
      and whether it ended. */
  function Drain(r: Registry, c: Consumer): (res: (Registry, seq<Event>, bool))
    requires c.queue in r.queues
    ensures c.queue in res.0.queues
    ensures res.1 == Delivered(r.queues[c.queue])
    ensures res.2 <==> !Open(r.queues[c.queue]) || c.workflowId !in r.streams
    ensures res.2 ==> c.workflowId !in res.0.streams
    ensures !res.2 ==> res.0.queues[c.queue] == [] && res.0.streams == r.streams
    decreases |r.queues[c.queue]|
  {
    var q := r.queues[c.queue];
    var (r1, pull) := ConsumeOne(r, c);
    match pull
    case Yielded(e) =>
      var (r2, es, ended) := Drain(r1, c);
      assert Delivered(q) == [e] + Delivered(q[1..]);
      assert Open(q) <==> Open(q[1..]) by {
        assert forall i :: 0 < i < |q| ==> q[i] == q[1..][i - 1];
      }
      (r2, [e] + es, ended)
    case Waiting => (r1, [], false)
    case Ended => (r1, [], true)
  }

  /** The registry forgetting a workflow, by cleanup, by the inactivity sweep or
      by a new registration under the same id, loses none of the events already
      queued for its consumer. */
  lemma ConsumerKeepsQueue(r: Registry, c: Consumer, initialPrompt: string, now: Time)
    requires r.Valid() && c.queue in r.queues
    ensures Drain(Cleanup(r, c.workflowId), c).1 == Delivered(r.queues[c.queue])
    ensures Drain(SweepInactive(r, now), c).1 == Delivered(r.queues[c.queue])
    ensures Drain(Stop(r), c).1 == Delivered(r.queues[c.queue])
    ensures c.workflowId !in r.streams ==>
      Drain(CreateStream(r, c.workflowId, initialPrompt, now).0, c).1 == Delivered(r.queues[c.queue])
  {
    if c.workflowId !in r.streams {
      ReRegisterKeepsOldQueue(r, c, initialPrompt, now);
    }
  }

  /** Registering makes a workflow active and, for a new id, adds one to the
      active count; no other workflow's activity changes. */
  lemma ActiveAfterCreate(r: Registry, workflowId: string, initialPrompt: string, now: Time)
    ensures IsActive(CreateStream(r, workflowId, initialPrompt, now).0, workflowId)
    ensures !IsActive(r, workflowId) ==> ActiveCount(CreateStream(r, workflowId, initialPrompt, now).0) == ActiveCount(r) + 1
    ensures forall id :: id != workflowId ==> (IsActive(CreateStream(r, workflowId, initialPrompt, now).0, id) <==> IsActive(r, id))
  {
    var r1 := CreateStream(r, workflowId, initialPrompt, now).0;
    if workflowId !in r.streams {
      assert r1.streams == r.streams[workflowId := r.nextQueue];
      KeysInsert(r.streams, workflowId, r.nextQueue);
    }
  }

  lemma KeysInsert(m: map<string, nat>, k: string, v: nat)
    requires k !in m
    ensures |m[k := v].Keys| == |m.Keys| + 1
  {
    assert m[k := v].Keys == m.Keys + {k};
  }

  /** Cleanup makes a workflow inactive and, when it was active, takes one off
      the active count; no other workflow's activity changes. */
  lemma ActiveAfterCleanup(r: Registry, workflowId: string)
    ensures !IsActive(Cleanup(r, workflowId), workflowId)
    ensures IsActive(r, workflowId) ==> ActiveCount(Cleanup(r, workflowId)) == ActiveCount(r) - 1
    ensures forall id :: id != workflowId ==> (IsActive(Cleanup(r, workflowId), id) <==> IsActive(r, id))
  {
  }

  // ---------------------------------------------------------------------------
  // Workflow completion
  // ---------------------------------------------------------------------------

  /** `complete_workflow`: the completion event carries whatever step count and
      tool list the state holds (zero and empty for an unknown id), then the
      termination signal follows. */
  function CompleteWorkflow(r: Registry, workflowId: string, finalResponse: string, executionTimeMs: int, now: Time): (r': Registry)
    ensures var event := CompletionEvent(r, workflowId, finalResponse, executionTimeMs, now);
      r' == Terminate(Emit(r, workflowId, event, now).0, workflowId)
    ensures var event := CompletionEvent(r, workflowId, finalResponse, executionTimeMs, now);
      workflowId in r.streams && (r.maxQueueSize <= 0 || |r.QueueOf(workflowId)| + 2 <= r.maxQueueSize) ==>
      && r'.streams == r.streams
      && r'.queues == r.queues[r.streams[workflowId] := r.QueueOf(workflowId) + [Some(event), None]]
    ensures r.Valid() ==> r'.Valid()
    ensures r.CountersUntouched() ==> r'.CountersUntouched()
  {
    var event := CompletionEvent(r, workflowId, finalResponse, executionTimeMs, now);
    EmitThenTerminate(r, workflowId, event, now);
    Terminate(Emit(r, workflowId, event, now).0, workflowId)
  }

  function CompletionEvent(r: Registry, workflowId: string, finalResponse: string, executionTimeMs: int, now: Time): (e: Event)
    ensures e.WorkflowCompleted? && e.workflowId == workflowId && e.finalResponse == finalResponse
    ensures workflowId !in r.states ==> e.totalSteps == 0 && e.toolsUsed == []
    ensures workflowId in r.states ==>
      e.totalSteps == r.states[workflowId].stepCounter && e.toolsUsed == r.states[workflowId].toolsUsed
  {
    var steps := if workflowId in r.states then r.states[workflowId].stepCounter else 0;
    var tools := if workflowId in r.states then r.states[workflowId].toolsUsed else [];
    WorkflowCompleted(workflowId, now, finalResponse, steps, executionTimeMs, tools)
  }

  /** Since nothing in the coordinator advances the counters, every completion
      reports zero steps and no tools. */
  lemma CompletionReportsNothing(r: Registry, workflowId: string, finalResponse: string, executionTimeMs: int, now: Time)
    requires r.CountersUntouched()
    ensures CompletionEvent(r, workflowId, finalResponse, executionTimeMs, now).totalSteps == 0
    ensures CompletionEvent(r, workflowId, finalResponse, executionTimeMs, now).toolsUsed == []
  {
  }

  /** `error_workflow`: there is no recovery suggestion to pass on. */
  function ErrorWorkflow(r: Registry, workflowId: string, errorMessage: string, errorType: string,
                         partialResponse: Option<string>, now: Time): (r': Registry)
    ensures var event := WorkflowError(workflowId, now, errorMessage, errorType, None, partialResponse);
      r' == Terminate(Emit(r, workflowId, event, now).0, workflowId)
    ensures var event := WorkflowError(workflowId, now, errorMessage, errorType, None, partialResponse);
      workflowId in r.streams && (r.maxQueueSize <= 0 || |r.QueueOf(workflowId)| + 2 <= r.maxQueueSize) ==>
      && r'.streams == r.streams
      && r'.queues == r.queues[r.streams[workflowId] := r.QueueOf(workflowId) + [Some(event), None]]
    ensures r.Valid() ==> r'.Valid()
  {
    var event := WorkflowError(workflowId, now, errorMessage, errorType, None, partialResponse);
    EmitThenTerminate(r, workflowId, event, now);
    Terminate(Emit(r, workflowId, event, now).0, workflowId)
  }

  /** With room for two more entries, an event followed by the termination
      signal lands as the last two entries of the workflow's queue. */
  lemma EmitThenTerminate(r: Registry, workflowId: string, e: Event, now: Time)
    ensures workflowId in r.streams && (r.maxQueueSize <= 0 || |r.QueueOf(workflowId)| + 2 <= r.maxQueueSize) ==>
      var r' := Terminate(Emit(r, workflowId, e, now).0, workflowId);
      && r'.streams == r.streams
      && r'.queues == r.queues[r.streams[workflowId] := r.QueueOf(workflowId) + [Some(e), None]]
  {
    if workflowId in r.streams && (r.maxQueueSize <= 0 || |r.QueueOf(workflowId)| + 2 <= r.maxQueueSize) {
      var r1 := Emit(r, workflowId, e, now).0;
      assert r1.QueueOf(workflowId) == r.QueueOf(workflowId) + [Some(e)];
      assert r.QueueOf(workflowId) + [Some(e)] + [None] == r.QueueOf(workflowId) + [Some(e), None];
    }
  }

  /** Emitting a sequence of events in order. */
  function EmitAll(r: Registry, workflowId: string, es: seq<Event>, now: Time): Registry
    decreases |es|
  {
    if |es| == 0 then r else EmitAll(Emit(r, workflowId, es[0], now).0, workflowId, es[1..], now)
  }

  /** With room in the queue, emitting appends every event in order. */
  lemma {:induction false} EmitAllAppends(r: Registry, workflowId: string, es: seq<Event>, now: Time)
    requires workflowId in r.streams && r.streams[workflowId] in r.queues
    requires r.maxQueueSize <= 0 || |r.QueueOf(workflowId)| + |es| <= r.maxQueueSize
    ensures var r' := EmitAll(r, workflowId, es, now);
      && r'.streams == r.streams
      && r'.queues == r.queues[r.streams[workflowId] := r.QueueOf(workflowId) + Somes(es)]
      && r'.maxQueueSize == r.maxQueueSize
      && r'.states.Keys == r.states.Keys
    decreases |es|
  {
    if |es| > 0 {
      var q := r.QueueOf(workflowId);
      var mid := EmitFirst(r, workflowId, es, now);
      EmitAllAppends(mid, workflowId, es[1..], now);
      SomesCons(q, es);
    } else {
      assert r.QueueOf(workflowId) + Somes(es) == r.QueueOf(workflowId);
    }
  }

  /** Queueing the first event, then the rest, queues them all. */
  lemma SomesCons(q: Queue, es: seq<Event>)
    requires |es| > 0
    ensures q + [Some(es[0])] + Somes(es[1..]) == q + Somes(es)
  {
    var a := q + [Some(es[0])] + Somes(es[1..]);
    var b := q + Somes(es);
    forall i | |q| < i < |a|
      ensures a[i] == b[i]
    {
      assert a[i] == Somes(es[1..])[i - |q| - 1] == Some(es[i - |q|]);
    }
  }

  /** The registry after the first of several events, with room for it. */
  lemma EmitFirst(r: Registry, workflowId: string, es: seq<Event>, now: Time) returns (mid: Registry)
    requires workflowId in r.streams && r.streams[workflowId] in r.queues
    requires |es| > 0 && !r.Full(r.QueueOf(workflowId))
    ensures mid.streams == r.streams
    ensures mid.queues == r.queues[r.streams[workflowId] := r.QueueOf(workflowId) + [Some(es[0])]]
    ensures mid.maxQueueSize == r.maxQueueSize && mid.states.Keys == r.states.Keys
    ensures EmitAll(r, workflowId, es, now) == EmitAll(mid, workflowId, es[1..], now)
  {
    mid := Emit(r, workflowId, es[0], now).0;
  }

  function Somes(es: seq<Event>): (q: Queue)
    ensures |q| == |es|
    ensures forall i :: 0 <= i < |es| ==> q[i] == Some(es[i])
  {
    if |es| == 0 then [] else [Some(es[0])] + Somes(es[1..])
  }

  lemma {:induction false} DeliveredSomes(es: seq<Event>)
    ensures Delivered(Somes(es)) == es
    decreases |es|
  {
    if |es| > 0 {
      DeliveredSomes(es[1..]);
      assert Somes(es)[1..] == Somes(es[1..]);
    }
  }

  /** A queue holding the start event, the emitted events, the completion
      event and the signal delivers exactly those events. */
  lemma DeliveredLifecycle(start: Event, es: seq<Event>, done: Event)
    ensures Delivered([Some(start)] + Somes(es) + [Some(done), None]) == [start] + es + [done]
  {
    var all := [start] + es + [done];
    var q := [Some(start)] + Somes(es) + [Some(done), None];
    forall i | 0 <= i < |all|
      ensures q[i] == Some(all[i])
    {
      if 0 < i <= |es| {
        assert q[i] == Somes(es)[i - 1] && all[i] == es[i - 1];
      }
    }
    assert q == Somes(all) + [None];
    DeliveredConcat(Somes(all), [None]);
    DeliveredSomes(all);
  }

  /** The consumer's queue of a fresh workflow after events and completion. */
  lemma LifecycleQueue(r: Registry, workflowId: string, initialPrompt: string, es: seq<Event>,
                       finalResponse: string, executionTimeMs: int, now: Time)
    requires r.Valid() && r.CountersUntouched()
    requires workflowId !in r.streams
    requires r.maxQueueSize <= 0 || |es| + 3 <= r.maxQueueSize
    ensures CreateStream(r, workflowId, initialPrompt, now).1 == Some(Consumer(workflowId, r.nextQueue))
    ensures var r2 := EmitAll(CreateStream(r, workflowId, initialPrompt, now).0, workflowId, es, now);
      var r3 := CompleteWorkflow(r2, workflowId, finalResponse, executionTimeMs, now);
      && r.nextQueue in r3.queues
      && r3.queues[r.nextQueue] ==
           [Some(NewWorkflowStarted(workflowId, now, initialPrompt))] + Somes(es)
           + [Some(WorkflowCompleted(workflowId, now, finalResponse, 0, executionTimeMs, [])), None]
  {
    var r2 := StartedAndEmitted(r, workflowId, initialPrompt, es, now);
    CompletedQueue(r2, workflowId, finalResponse, executionTimeMs, now);
  }

  /** Completing a registered workflow whose queue has room for two more items
      appends its completion event and the signal. */
  lemma CompletedQueue(r: Registry, workflowId: string, finalResponse: string, executionTimeMs: int, now: Time)
    requires r.Valid() && r.CountersUntouched()
    requires workflowId in r.streams
    requires r.maxQueueSize <= 0 || |r.QueueOf(workflowId)| + 2 <= r.maxQueueSize
    ensures var h := r.streams[workflowId];
      var r' := CompleteWorkflow(r, workflowId, finalResponse, executionTimeMs, now);
      h in r'.queues &&
      r'.queues[h] == r.QueueOf(workflowId) + [Some(WorkflowCompleted(workflowId, now, finalResponse, 0, executionTimeMs, [])), None]
  {
    var done := CompletionEvent(r, workflowId, finalResponse, executionTimeMs, now);
    assert done == WorkflowCompleted(workflowId, now, finalResponse, 0, executionTimeMs, []);
    var r1 := Emit(r, workflowId, done, now).0;
    assert r1.QueueOf(workflowId) == r.QueueOf(workflowId) + [Some(done)];
    assert r1.QueueOf(workflowId) + [None] == r.QueueOf(workflowId) + [Some(done), None];
  }

  /** A fresh workflow's registry after its start event and the emitted events. */
  lemma StartedAndEmitted(r: Registry, workflowId: string, initialPrompt: string, es: seq<Event>, now: Time)
    returns (r2: Registry)
    requires r.Valid() && r.CountersUntouched()
    requires workflowId !in r.streams
    requires r.maxQueueSize <= 0 || |es| + 3 <= r.maxQueueSize
    ensures r2 == EmitAll(CreateStream(r, workflowId, initialPrompt, now).0, workflowId, es, now)
    ensures CreateStream(r, workflowId, initialPrompt, now).1 == Some(Consumer(workflowId, r.nextQueue))
    ensures r2.Valid() && r2.CountersUntouched()
    ensures workflowId in r2.streams && r2.streams[workflowId] == r.nextQueue && r.nextQueue in r2.queues
    ensures r2.queues[r.nextQueue] == [Some(NewWorkflowStarted(workflowId, now, initialPrompt))] + Somes(es)
    ensures r2.maxQueueSize == r.maxQueueSize
  {
    var r1 := CreateStream(r, workflowId, initialPrompt, now).0;
    assert r1.QueueOf(workflowId) == [Some(NewWorkflowStarted(workflowId, now, initialPrompt))];
    EmitAllAppends(r1, workflowId, es, now);
    EmitAllUntouched(r1, workflowId, es, now);
    EmitAllValid(r1, workflowId, es, now);
    r2 := EmitAll(r1, workflowId, es, now);
  }

  lemma {:induction false} EmitAllValid(r: Registry, workflowId: string, es: seq<Event>, now: Time)
    requires r.Valid()
    ensures EmitAll(r, workflowId, es, now).Valid()
    decreases |es|
  {
    if |es| > 0 {
      EmitAllValid(Emit(r, workflowId, es[0], now).0, workflowId, es[1..], now);
    }
  }

  /** The consumer of a fresh workflow sees the start event, the emitted events in
      order and the completion event, and then ends, leaving the workflow cleaned
      up. */
  lemma StreamLifecycle(r: Registry, workflowId: string, initialPrompt: string, es: seq<Event>,
                        finalResponse: string, executionTimeMs: int, now: Time)
    requires r.Valid() && r.CountersUntouched()
    requires workflowId !in r.streams
    requires r.maxQueueSize <= 0 || |es| + 3 <= r.maxQueueSize
    ensures CreateStream(r, workflowId, initialPrompt, now).1 == Some(Consumer(workflowId, r.nextQueue))
    ensures var r2 := EmitAll(CreateStream(r, workflowId, initialPrompt, now).0, workflowId, es, now);
      var r3 := CompleteWorkflow(r2, workflowId, finalResponse, executionTimeMs, now);
      && r.nextQueue in r3.queues
      && var (r4, yielded, ended) := Drain(r3, Consumer(workflowId, r.nextQueue));
      && yielded == [NewWorkflowStarted(workflowId, now, initialPrompt)] + es
                    + [WorkflowCompleted(workflowId, now, finalResponse, 0, executionTimeMs, [])]
      && ended && workflowId !in r4.streams
  {
    LifecycleQueue(r, workflowId, initialPrompt, es, finalResponse, executionTimeMs, now);
    var start := NewWorkflowStarted(workflowId, now, initialPrompt);
    var done := WorkflowCompleted(workflowId, now, finalResponse, 0, executionTimeMs, []);
    DeliveredLifecycle(start, es, done);
    var q := [Some(start)] + Somes(es) + [Some(done), None];
    assert q[|q| - 1] == None;
    assert !Open(q);
  }

  lemma {:induction false} EmitAllUntouched(r: Registry, workflowId: string, es: seq<Event>, now: Time)
    requires r.CountersUntouched()
    ensures EmitAll(r, workflowId, es, now).CountersUntouched()
    decreases |es|
  {
    if |es| > 0 {
      EmitAllUntouched(Emit(r, workflowId, es[0], now).0, workflowId, es[1..], now);
    }
  }

  // ---------------------------------------------------------------------------
  // Background sweeps and shutdown
  // ---------------------------------------------------------------------------

  /** One pass of `_cleanup_inactive_streams` at time `now`: every workflow idle
      for more than an hour is cleaned up. */
  function SweepInactive(r: Registry, now: Time): (r': Registry)
    ensures forall id :: id in r'.states <==> id in r.states && r.states[id].lastActivity >= now - CleanupAge
    ensures forall id :: id in r'.streams <==>
      id in r.streams && !(id in r.states && r.states[id].lastActivity < now - CleanupAge)
    ensures forall id :: id in r'.states ==> r'.states[id] == r.states[id]
    ensures forall id :: id in r'.streams ==> r'.streams[id] == r.streams[id]
    ensures r'.queues == r.queues
    ensures r.Valid() ==> r'.Valid()
    ensures r.CountersUntouched() ==> r'.CountersUntouched()
  {
    var stale := set id | id in r.states && r.states[id].lastActivity < now - CleanupAge;
    r.(streams := r.streams - stale, states := r.states - stale)
  }

  /** One round of `_send_heartbeats` over the listed workflows. */
  function HeartbeatRound(r: Registry, ids: seq<string>, now: Time): (r': Registry)
    ensures r'.streams == r.streams && r'.states.Keys == r.states.Keys
    ensures r.Valid() ==> r'.queues.Keys == r.queues.Keys
    ensures r'.maxQueueSize == r.maxQueueSize && r'.nextQueue == r.nextQueue
    ensures r.Valid() ==> r'.Valid()
    ensures r.CountersUntouched() ==> r'.CountersUntouched()
    decreases |ids|
  {
    if |ids| == 0 then r
    else
      var r1 := Emit(r, ids[0], NewHeartbeat(ids[0], now), now).0;
      HeartbeatRound(r1, ids[1..], now)
  }

  predicate Distinct(ids: seq<string>) {
    forall i, j :: 0 <= i < j < |ids| ==> ids[i] != ids[j]
  }

  /** A registered workflow's queue after a heartbeat: one heartbeat more at the
      tail when there is room, unchanged when it is full. */
  function Beat(r: Registry, workflowId: string, now: Time): Queue
    requires workflowId in r.streams
  {
    var q := r.QueueOf(workflowId);
    if r.Full(q) then q else q + [Some(NewHeartbeat(workflowId, now))]
  }

  /** The handles of the listed workflows that are registered. */
  function ListedQueues(r: Registry, ids: seq<string>): set<nat> {
    set id | id in ids && id in r.streams :: r.streams[id]
  }

  /** Over a list naming each workflow at most once, a heartbeat round puts one
      heartbeat at the tail of every listed registered workflow's queue that has
      room and marks its activity, and leaves every other queue and state as it
      was; listed ids that are not registered change nothing. */
  lemma HeartbeatRoundEffect(r: Registry, ids: seq<string>, now: Time)
    requires r.Valid() && Distinct(ids)
    ensures var r' := HeartbeatRound(r, ids, now);
      && (forall id :: id in r.streams && id in ids ==> r'.queues[r.streams[id]] == Beat(r, id, now))
      && (forall h :: h in r.queues && h !in ListedQueues(r, ids) ==> r'.queues[h] == r.queues[h])
      && (forall id :: id in r.states && id in ids && id in r.streams && !r.Full(r.QueueOf(id)) ==>
            r'.states[id] == MarkActivity(r.states[id], now))
      && (forall id :: id in r.states && !(id in ids && id in r.streams && !r.Full(r.QueueOf(id))) ==>
            r'.states[id] == r.states[id])
  {
    HeartbeatRoundQueues(r, ids, now);
    HeartbeatRoundStates(r, ids, now);
  }

  lemma HeartbeatRoundQueues(r: Registry, ids: seq<string>, now: Time)
    requires r.Valid() && Distinct(ids)
    ensures var r' := HeartbeatRound(r, ids, now);
      && (forall id :: id in r.streams && id in ids ==> r'.queues[r.streams[id]] == Beat(r, id, now))
      && (forall h :: h in r.queues && h !in ListedQueues(r, ids) ==> r'.queues[h] == r.queues[h])
  {
    HeartbeatListed(r, ids, now);
    HeartbeatUnlisted(r, ids, now);
  }

  lemma {:induction false} HeartbeatListed(r: Registry, ids: seq<string>, now: Time)
    requires r.Valid() && Distinct(ids)
    ensures var r' := HeartbeatRound(r, ids, now);
      forall id :: id in r.streams && id in ids ==> r'.queues[r.streams[id]] == Beat(r, id, now)
    decreases |ids|
  {
    if |ids| > 0 {
      var x := ids[0];
      var r1 := Emit(r, x, NewHeartbeat(x, now), now).0;
      var rest := ids[1..];
      assert Distinct(rest);
      HeartbeatListed(r1, rest, now);
      HeartbeatUnlisted(r1, rest, now);
      HeartbeatStep(r, x, now);
      var r' := HeartbeatRound(r, ids, now);
      assert r' == HeartbeatRound(r1, rest, now);
      forall id | id in r.streams && id in ids
        ensures r'.queues[r.streams[id]] == Beat(r, id, now)
      {
        if id != x {
          assert id in rest;
          BeatSame(r, r1, id, now);
        } else {
          NotListed(r1, rest, x);
        }
      }
    }
  }

  /** Registries that agree on a workflow's queue agree on its heartbeat. */
  lemma BeatSame(r: Registry, r1: Registry, workflowId: string, now: Time)
    requires workflowId in r.streams && r1.streams == r.streams && r1.maxQueueSize == r.maxQueueSize
    requires r1.QueueOf(workflowId) == r.QueueOf(workflowId)
    ensures Beat(r1, workflowId, now) == Beat(r, workflowId, now)
  {
  }

  /** An unlisted workflow's queue is no listed workflow's queue. */
  lemma NotListed(r: Registry, ids: seq<string>, x: string)
    requires r.Valid() && x in r.streams && x !in ids
    ensures r.streams[x] !in ListedQueues(r, ids)
  {
  }

  lemma {:induction false} HeartbeatUnlisted(r: Registry, ids: seq<string>, now: Time)
    requires r.Valid()
    ensures var r' := HeartbeatRound(r, ids, now);
      forall h :: h in r.queues && h !in ListedQueues(r, ids) ==> r'.queues[h] == r.queues[h]
    decreases |ids|
  {
    if |ids| > 0 {
      var x := ids[0];
      var r1 := Emit(r, x, NewHeartbeat(x, now), now).0;
      var rest := ids[1..];
      HeartbeatUnlisted(r1, rest, now);
      HeartbeatStep(r, x, now);
      assert ListedQueues(r1, rest) <= ListedQueues(r, ids) by {
        assert forall id :: id in rest ==> id in ids;
      }
      assert x in r.streams ==> r.streams[x] in ListedQueues(r, ids);
    }
  }

  lemma {:induction false} HeartbeatRoundStates(r: Registry, ids: seq<string>, now: Time)
    requires r.Valid() && Distinct(ids)
    ensures var r' := HeartbeatRound(r, ids, now);
      && (forall id :: id in r.states && id in ids && id in r.streams && !r.Full(r.QueueOf(id)) ==>
            r'.states[id] == MarkActivity(r.states[id], now))
      && (forall id :: id in r.states && !(id in ids && id in r.streams && !r.Full(r.QueueOf(id))) ==>
            r'.states[id] == r.states[id])
    decreases |ids|
  {
    if |ids| > 0 {
      var x := ids[0];
      var r1 := Emit(r, x, NewHeartbeat(x, now), now).0;
      var rest := ids[1..];
      assert Distinct(rest);
      assert x !in rest;
      HeartbeatRoundStates(r1, rest, now);
      HeartbeatStep(r, x, now);
      var r' := HeartbeatRound(r, ids, now);
      assert r' == HeartbeatRound(r1, rest, now);
      forall id | id in r.states && !(id in ids && id in r.streams && !r.Full(r.QueueOf(id)))
        ensures r'.states[id] == r.states[id]
      {
        assert id != x ==> !(id in rest && id in r1.streams && !r1.Full(r1.QueueOf(id)));
      }
      forall id | id in r.states && id in ids && id in r.streams && !r.Full(r.QueueOf(id))
        ensures r'.states[id] == MarkActivity(r.states[id], now)
      {
        if id != x {
          assert id in rest;
        } else {
          assert x !in rest;
        }
      }
    }
  }

  /** One heartbeat touches only its own workflow's queue and state. */
  lemma HeartbeatStep(r: Registry, x: string, now: Time)
    requires r.Valid()
    ensures var r1 := Emit(r, x, NewHeartbeat(x, now), now).0;
      && r1.Valid() && r1.streams == r.streams && r1.queues.Keys == r.queues.Keys
      && (x in r.streams ==> r1.queues[r.streams[x]] == Beat(r, x, now))
      && (forall h :: h in r.queues && !(x in r.streams && h == r.streams[x]) ==> r1.queues[h] == r.queues[h])
      && (forall id :: id in r.streams && id != x ==> r1.QueueOf(id) == r.QueueOf(id))
      && (x in r.states && x in r.streams && !r.Full(r.QueueOf(x)) ==> r1.states[x] == MarkActivity(r.states[x], now))
      && (forall id :: id in r.states && !(id == x && x in r.streams && !r.Full(r.QueueOf(x))) ==> r1.states[id] == r.states[id])
  {
  }

  /** `_send_heartbeats` lists exactly the registered workflows: every active
      stream with room gets one heartbeat, and the queues of consumers whose
      workflow is no longer registered get none. */
  lemma HeartbeatAllActive(r: Registry, ids: seq<string>, now: Time)
    requires r.Valid() && Distinct(ids)
    requires forall id :: id in ids <==> id in r.streams
    ensures var r' := HeartbeatRound(r, ids, now);
      && (forall id :: id in r.streams ==> r'.queues[r.streams[id]] == Beat(r, id, now))
      && (forall h :: h in r.queues && (forall id :: id in r.streams ==> r.streams[id] != h) ==>
            r'.queues[h] == r.queues[h])
  {
    HeartbeatRoundEffect(r, ids, now);
  }

  /** `stop`: every stream is cleaned up; queued events stay with their consumers. */
  function Stop(r: Registry): (r': Registry)
    ensures ActiveCount(r') == 0
    ensures r'.queues == r.queues
    ensures r.Valid() ==> r'.Valid() && r'.states == map[]
  {
    r.(streams := map[], states := r.states - r.streams.Keys)
  }

  // ---------------------------------------------------------------------------
  // `stop` as written
  // ---------------------------------------------------------------------------

  /** Taking the coordinator's `asyncio.Lock`, which is not re-entrant: a task
      that already holds it waits forever (`None`); otherwise it now holds it. */
  function AcquireLock(held: bool): (r: Option<bool>)
    ensures r.Some? <==> !held
    ensures r.Some? ==> r.value
  {
    if held then None else Some(true)
  }

  /** `_cleanup_stream` called by a task that may already hold the lock, since it
      takes the lock itself; `None` is waiting forever. */
  function CleanupLocked(r: Registry, workflowId: string, held: bool): (res: Option<Registry>)
    ensures res.Some? <==> !held
    ensures res.Some? ==> res.value == Cleanup(r, workflowId)
  {
    match AcquireLock(held)
    case None => None
    case Some(_) => Some(Cleanup(r, workflowId))
  }

  /** The loop of `stop` as written, which awaits `_cleanup_stream` for each
      listed id; `held` says whether the caller holds the lock meanwhile. */
  function StopLoopAsWritten(r: Registry, ids: seq<string>, held: bool): (res: Option<Registry>)
    ensures res.Some? <==> |ids| == 0 || !held
    ensures |ids| == 0 ==> res == Some(r)
    decreases |ids|
  {
    if |ids| == 0 then Some(r)
    else
      match CleanupLocked(r, ids[0], held)
      case None => None
      case Some(r1) => StopLoopAsWritten(r1, ids[1..], held)
  }

  /** `stop` as written, over `list(self.active_streams.keys())`: it returns
      only when no stream is registered, and then changes nothing. */
  function StopAsWritten(r: Registry, ids: seq<string>): (res: Option<Registry>)
    requires forall id :: id in ids <==> id in r.streams
    ensures res.Some? <==> r.streams == map[]
    ensures res.Some? ==> res.value == Stop(r)
  {
    ListedAll(r, ids);
    match AcquireLock(false)
    case None => None
    case Some(held) => StopLoopAsWritten(r, ids, held)
  }

  /** A list of exactly the registered ids is empty only when nothing is registered. */
  lemma ListedAll(r: Registry, ids: seq<string>)
    requires forall id :: id in ids <==> id in r.streams
    ensures |ids| == 0 <==> r.streams == map[]
  {
    if |ids| > 0 {
      assert ids[0] in r.streams;
    } else {
      assert r.streams.Keys == {};
    }
  }

  /** One registered workflow is enough: `stop` as written never returns, where
      the intended `Stop` leaves no stream registered. */
  lemma StopHangs()
    ensures var r := CreateStream(NewRegistry(), "w", "", 0).0;
      && StopAsWritten(r, ["w"]) == None
      && ActiveCount(Stop(r)) == 0
  {
    var r := CreateStream(NewRegistry(), "w", "", 0).0;
    assert "w" in r.streams;
  }
}
