/**
 * The in-flight request tracker: a pool of permits bounding the number of
 * outstanding requests, the pending futures keyed by request id, and the
 * periodic sweep of entries older than the timeout. Each operation is one
 * atomic step; the clock is the `now` parameter (nanoseconds).
 */
module InFlight {
  import opened Wrappers
  import opened Lang
  import opened Commands

  /** Permits of the semaphore, and so the most requests in flight. */
  const MAX_PERMITS: nat := 10
  const TIMEOUT_SEC: nat := 10
  const TIMEOUT_NANOS: nat := TIMEOUT_SEC * 1_000_000_000

  datatype FutureState = Pending | Completed(response: Command) | Failed(cause: Throwable)

  /** A `CompletableFuture<Command>`: completed at most once. */
  class Future {
    var state: FutureState

    constructor ()
      ensures state == Pending
    {
      state := Pending;
    }

    /** `completeExceptionally(cause)`: fails a pending future; reports whether it did. */
    method CompleteExceptionally(cause: Throwable) returns (transitioned: bool)
      modifies this
      ensures transitioned <==> old(state).Pending?
      ensures state == if transitioned then Failed(cause) else old(state)
    {
      transitioned := state.Pending?;
      if transitioned {
        state := Failed(cause);
      }
    }
  }

  /** A pending request: its id, the future handed to the caller, and its creation time. */
  datatype ResponseFuture = ResponseFuture(requestId: Int32, future: Future, timestamp: int)

  /** An entry is swept once strictly more than the timeout has elapsed since it was created. */
  predicate Expired(rf: ResponseFuture, now: int)
  {
    now - rf.timestamp > TIMEOUT_NANOS
  }

  /** The entries a sweep at `now` keeps. */
  function Unexpired(m: map<Int32, ResponseFuture>, now: int): (kept: map<Int32, ResponseFuture>)
  {
    map id | id in m && !Expired(m[id], now) :: m[id]
  }

  /** The ids a sweep at `now` removes. */
  function ExpiredIds(m: map<Int32, ResponseFuture>, now: int): (ids: set<Int32>)
  {
    set id | id in m && Expired(m[id], now)
  }

  /** The futures of the entries a sweep at `now` removes. */
  function ExpiredFutures(m: map<Int32, ResponseFuture>, now: int): (futures: set<Future>)
  {
    set id | id in m && Expired(m[id], now) :: m[id].future
  }

  /** A sweep splits the entries into kept and removed ones: one permit comes back per removed entry. */
  lemma SweepPartition(m: map<Int32, ResponseFuture>, now: int)
    ensures Unexpired(m, now).Keys !! ExpiredIds(m, now)
    ensures Unexpired(m, now).Keys + ExpiredIds(m, now) == m.Keys
    ensures |Unexpired(m, now)| + |ExpiredIds(m, now)| == |m|
  {
    var kept := Unexpired(m, now).Keys;
    var gone := ExpiredIds(m, now);
    assert kept + gone == m.Keys;
    assert |kept + gone| == |kept| + |gone|;
  }

  /** The tracker (`InFlightRequests`). */
  class InFlightRequests {
    /** Free permits of the semaphore. */
    var permits: int
    var futureMap: map<Int32, ResponseFuture>

    /** Every permit is either free or held by exactly one tracked request. */
    predicate Balanced()
      reads this
    {
      permits >= 0 && permits + |futureMap| == MAX_PERMITS
    }

    constructor ()
      ensures permits == MAX_PERMITS && futureMap == map[]
      ensures Balanced()
    {
      permits := MAX_PERMITS;
      futureMap := map[];
    }

    /**
     * `put`: take a permit if one is free (the bounded wait of `tryAcquire` is
     * modelled as "a permit is free now") and store the future under its id;
     * otherwise throw a TimeoutException and change nothing.
     */
    method Put(rf: ResponseFuture) returns (r: Outcome<Throwable>)
      modifies this
      ensures r.Pass? <==> old(permits) > 0
      ensures r.Pass? ==> permits == old(permits) - 1 && futureMap == old(futureMap)[rf.requestId := rf]
      ensures r.Fail? ==> r.error == Timeout && permits == old(permits) && futureMap == old(futureMap)
      ensures old(Balanced()) && r.Pass? ==> (Balanced() <==> rf.requestId !in old(futureMap))
      ensures old(Balanced()) && r.Fail? ==> Balanced()
    {
      if permits > 0 {
        permits := permits - 1;
        futureMap := futureMap[rf.requestId := rf];
        r := Pass;
      } else {
        r := Fail(Timeout);
      }
    }

    /** `remove(requestId)`: drop the entry and release its permit if there was one; return it or null. */
    method Remove(requestId: Int32) returns (r: Option<ResponseFuture>)
      modifies this
      ensures r == if requestId in old(futureMap) then Some(old(futureMap)[requestId]) else None
      ensures futureMap == old(futureMap) - {requestId}
      ensures permits == old(permits) + (if r.Some? then 1 else 0)
      ensures old(Balanced()) ==> Balanced()
    {
      if requestId in futureMap {
        r := Some(futureMap[requestId]);
        futureMap := futureMap - {requestId};
        permits := permits + 1;
      } else {
        r := None;
      }
    }

    /**
     * `removeTimeoutFutures`, as written: remove every entry older than the
     * timeout and release one permit for each. The removed futures are left
     * as they were: nothing completes them.
     */
    method RemoveTimeoutFutures(now: int)
      modifies this
      ensures futureMap == Unexpired(old(futureMap), now)
      ensures permits == old(permits) + |ExpiredIds(old(futureMap), now)|
      ensures old(Balanced()) ==> Balanced()
    {
      ghost var original := futureMap;
      var unvisited := futureMap.Keys;
      while unvisited != {}
        invariant unvisited <= original.Keys
        invariant futureMap.Keys <= original.Keys
        invariant forall id :: id in futureMap ==> futureMap[id] == original[id]
        invariant forall id :: id in original ==> (id in futureMap <==> id in unvisited || !Expired(original[id], now))
        invariant permits + |futureMap| == old(permits) + |original|
        decreases unvisited
      {
        var id :| id in unvisited;
        if Expired(futureMap[id], now) {
          assert (futureMap - {id}).Keys == futureMap.Keys - {id};
          futureMap := futureMap - {id};
          permits := permits + 1;
        }
        unvisited := unvisited - {id};
      }
      assert futureMap == Unexpired(original, now);
      SweepPartition(original, now);
    }

    /**
     * The sweep as the comment above `removeTimeoutFutures` describes: the
     * removal of `RemoveTimeoutFutures`, and then every removed future that is
     * still pending is failed with a TimeoutException, so no caller waits on
     * it forever.
     */
    method RemoveAndFailTimeoutFutures(now: int)
      modifies this, ExpiredFutures(futureMap, now)
      ensures futureMap == Unexpired(old(futureMap), now)
      ensures permits == old(permits) + |ExpiredIds(old(futureMap), now)|
      ensures old(Balanced()) ==> Balanced()
      ensures forall f :: f in ExpiredFutures(old(futureMap), now) ==>
        f.state == if old(f.state).Pending? then Failed(Timeout) else old(f.state)
    {
      var expired := ExpiredFutures(futureMap, now);
      RemoveTimeoutFutures(now);
      var unfailed := expired;
      while unfailed != {}
        invariant unfailed <= expired
        modifies expired
        invariant forall f :: f in expired - unfailed ==>
          f.state == if old(f.state).Pending? then Failed(Timeout) else old(f.state)
        invariant forall f :: f in unfailed ==> f.state == old(f.state)
        decreases unfailed
      {
        var f :| f in unfailed;
        var _ := f.CompleteExceptionally(Timeout);
        unfailed := unfailed - {f};
      }
    }
  }

  /**
   * The as-written sweep orphans a future: after it, the entry is gone (so a
   * late response can no longer find it) while the future is still pending.
   */
  method SweepLeavesFuturePending() returns (tracker: InFlightRequests, future: Future)
    ensures future.state == Pending
    ensures tracker.futureMap == map[]
    ensures tracker.permits == MAX_PERMITS
  {
    tracker := new InFlightRequests();
    future := new Future();
    var _ := tracker.Put(ResponseFuture(1, future, 0));
    tracker.RemoveTimeoutFutures(TIMEOUT_NANOS + 1);
  }

  /** The corrected sweep resolves the same future with a TimeoutException. */
  method SweepFailsFuture() returns (tracker: InFlightRequests, future: Future)
    ensures future.state == Failed(Timeout)
    ensures tracker.futureMap == map[]
    ensures tracker.permits == MAX_PERMITS
  {
    tracker := new InFlightRequests();
    future := new Future();
    var _ := tracker.Put(ResponseFuture(1, future, 0));
    assert future in ExpiredFutures(tracker.futureMap, TIMEOUT_NANOS + 1);
    tracker.RemoveAndFailTimeoutFutures(TIMEOUT_NANOS + 1);
  }
}
