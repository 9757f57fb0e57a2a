/** The sequential request queue of src/core/handlers/requestQueuer.ts. Request functions wait in an
    array; at most one runs at a time, and when it settles the next one is taken from the head.
    `QueueState` and its transitions are the specification; `RequestQueuer` is the class, proved to
    follow them. */
module Queue {
  import opened Js
  import opened Runtime

  /** The queue as a state machine: the waiting entries, and the entry whose run is being awaited. */
  datatype QueueState<E> = QueueState(queue: seq<E>, running: Option<E>)

  /** The entries not yet settled, in the order they will settle: the running one, then the queue. */
  function Active<E>(s: QueueState<E>): seq<E>
  {
    (if s.running.Some? then [s.running.value] else []) + s.queue
  }

  /** Between steps the queue never idles while entries wait. */
  predicate AtRest<E>(s: QueueState<E>)
  {
    s.running.None? ==> s.queue == []
  }

  /** processQueue: it changes nothing while an entry runs or when nothing waits; otherwise the head
      starts. Stated: no entry is lost or reordered, the queue ends at rest, and a running entry is
      never displaced. */
  function ProcessStep<E>(s: QueueState<E>): (r: QueueState<E>)
    ensures Active(r) == Active(s)
    ensures AtRest(r)
    ensures s.running.Some? ==> r == s
  {
    if s.running.Some? || s.queue == [] then s
    else QueueState(s.queue[1..], Some(s.queue[0]))
  }

  /** enqueueRequest: append at the tail, then try to process. */
  function EnqueueStep<E>(s: QueueState<E>, e: E): (r: QueueState<E>)
    requires AtRest(s)
    ensures AtRest(r)
    ensures Active(r) == Active(s) + [e]
    ensures s.running.None? ==> r.running == Some(e)
    ensures s.running.Some? ==> r.running == s.running
  {
    ProcessStep(s.(queue := s.queue + [e]))
  }

  /** The running entry settled (whether it succeeded or threw): clear the flag and process again. */
  function FinishStep<E>(s: QueueState<E>): (r: QueueState<E>)
    requires s.running.Some?
    ensures AtRest(r)
    ensures Active(r) == Active(s)[1..]
    ensures r.running.Some? <==> s.queue != []
  {
    ProcessStep(s.(running := None))
  }

  /** What can happen to a queue: a request is enqueued, or the running request settles. */
  datatype Event<E> = Arrive(e: E) | Complete

  function Arrivals<E>(events: seq<Event<E>>): seq<E>
  {
    if events == [] then []
    else Arrivals(events[..|events| - 1]) + (if events[|events| - 1].Arrive? then [events[|events| - 1].e] else [])
  }

  /** The state after a run of events, and the entries that settled, in the order they settled.
      A completion while nothing runs cannot happen and is ignored. */
  function Replay<E>(s: QueueState<E>, events: seq<Event<E>>): (r: (QueueState<E>, seq<E>))
    requires AtRest(s)
    ensures AtRest(r.0)
  {
    if events == [] then (s, [])
    else
      var (t, settled) := Replay(s, events[..|events| - 1]);
      match events[|events| - 1]
      case Arrive(e) => (EnqueueStep(t, e), settled)
      case Complete => if t.running.Some? then (FinishStep(t), settled + [t.running.value]) else (t, settled)
  }

  /** First in, first out: after any run of events, the entries that settled followed by those still
      active are exactly the entries that were active at the start followed by those that arrived,
      in order. So entries settle in enqueue order, none twice and none skipped. */
  lemma {:induction false} SettleInArrivalOrder<E>(s: QueueState<E>, events: seq<Event<E>>)
    requires AtRest(s)
    ensures Replay(s, events).1 + Active(Replay(s, events).0) == Active(s) + Arrivals(events)
  {
    if events != [] {
      var init := events[..|events| - 1];
      SettleInArrivalOrder(s, init);
      var (t, settled) := Replay(s, init);
      match events[|events| - 1]
      case Arrive(e) =>
        assert settled + (Active(t) + [e]) == (settled + Active(t)) + [e];
      case Complete =>
        if t.running.Some? {
          assert Active(t) == [t.running.value] + Active(t)[1..];
          assert settled + [t.running.value] + Active(t)[1..] == settled + Active(t);
        }
    }
  }

  /** Starting from an empty queue, the settled entries are always a prefix of the arrivals. */
  lemma SettledArePrefixOfArrivals<E>(events: seq<Event<E>>)
    ensures Replay(QueueState([], None), events).1 <= Arrivals(events)
  {
    var r := Replay(QueueState([], None), events);
    SettleInArrivalOrder(QueueState([], None), events);
    assert r.1 + Active(r.0) == Arrivals(events);
    assert Arrivals(events)[..|r.1|] == r.1;
  }

  /** An entry in the queue: the request function and the promise its `resolve`/`reject` settle. */
  datatype QueueEntry<T, V> = QueueEntry(requestFn: T, promise: Promise<V>)

  class RequestQueuer<T(==), V> {
    var requestQueue: seq<QueueEntry<T, V>>
    var isRequestInProgress: bool
    /** The entry the suspended `processQueue` call is awaiting (its destructured locals). */
    var running: Option<QueueEntry<T, V>>

    function State(): QueueState<QueueEntry<T, V>>
      reads this
    {
      QueueState(requestQueue, running)
    }

    ghost function Promises(): set<Promise<V>>
      reads this
    {
      set i | 0 <= i < |Active(State())| :: Active(State())[i].promise
    }

    /** The flag mirrors whether an entry runs, the queue is at rest, every active entry has a
        promise of its own, and those promises are all still pending. */
    ghost predicate Valid()
      reads this, Promises()
    {
      && (isRequestInProgress <==> running.Some?)
      && AtRest(State())
      && (forall i, j :: 0 <= i < j < |Active(State())| ==> Active(State())[i].promise != Active(State())[j].promise)
      && (forall i :: 0 <= i < |Active(State())| ==> Active(State())[i].promise.state.None?)
    }

    constructor()
      ensures Valid()
      ensures requestQueue == [] && running == None
    {
      requestQueue := [];
      isRequestInProgress := false;
      running := None;
    }

    /** processQueue up to its `await`: returns the request function it started, if any, for the
        caller to run. */
    method ProcessQueue() returns (started: Option<T>)
      requires isRequestInProgress <==> running.Some?
      modifies this
      ensures isRequestInProgress <==> running.Some?
      ensures State() == ProcessStep(old(State()))
      ensures started.Some? <==> old(running).None? && old(requestQueue) != []
      ensures started.Some? ==> running.Some? && started.value == running.value.requestFn
    {
      if isRequestInProgress || |requestQueue| == 0 {
        return None;
      }
      var entry := requestQueue[0];
      requestQueue := requestQueue[1..];
      isRequestInProgress := true;
      running := Some(entry);
      started := Some(entry.requestFn);
    }

    /** enqueueRequest: a fresh pending promise whose entry goes to the tail; on an idle queue the
        new request function starts at once. */
    method EnqueueRequest(requestFn: T) returns (promise: Promise<V>, started: Option<T>)
      requires Valid()
      modifies this
      ensures Valid()
      ensures fresh(promise) && promise.state.None?
      ensures State() == EnqueueStep(old(State()), QueueEntry(requestFn, promise))
      ensures started == if old(running).None? then Some(requestFn) else None
    {
      ghost var before := Active(State());
      promise := new Promise<V>();
      assert forall i :: 0 <= i < |before| ==> before[i].promise != promise;
      requestQueue := requestQueue + [QueueEntry(requestFn, promise)];
      started := ProcessQueue();
      assert Active(State()) == before + [QueueEntry(requestFn, promise)];
    }

    /** The running request function settled with `outcome`: that entry's promise, and only it, is
        settled with it; the flag is cleared and the next entry starts, whatever the outcome was. */
    method Finish(outcome: Settlement<V>) returns (started: Option<T>)
      requires Valid() && running.Some?
      modifies this, running.value.promise
      ensures Valid()
      ensures old(running.value.promise).state == Some(outcome)
      ensures State() == FinishStep(old(State()))
      ensures started.Some? <==> old(requestQueue) != []
      ensures started.Some? ==> started.value == old(requestQueue)[0].requestFn
    {
      var entry := running.value;
      ghost var rest := Active(State())[1..];
      assert entry == Active(State())[0];
      assert forall k :: 0 <= k < |rest| ==> rest[k] == Active(State())[k + 1];
      entry.promise.Settle(outcome);
      assert forall k :: 0 <= k < |rest| ==> rest[k].promise.state.None?;
      isRequestInProgress := false;
      running := None;
      started := ProcessQueue();
    }
  }

  /** A failed request does not stall the queue: two requests enqueued back to back, the first
      rejected, the second still runs and resolves. */
  method FailureDoesNotStall() returns (first: Option<Settlement<int>>, second: Option<Settlement<int>>)
    ensures first == Some(Rejected(Error("offline")))
    ensures second == Some(Fulfilled(200))
  {
    var q := new RequestQueuer<string, int>();
    var p1, s1 := q.EnqueueRequest("first");
    assert s1 == Some("first");
    var p2, s2 := q.EnqueueRequest("second");
    assert s2 == None;
    var s3 := q.Finish(Rejected(Error("offline")));
    assert s3 == Some("second");
    var s4 := q.Finish(Fulfilled(200));
    assert s4 == None;
    first, second := p1.state, p2.state;
  }
}
