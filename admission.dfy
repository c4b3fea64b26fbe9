/**
 * `ConcurrencyMiddleware` of app/main.py: the in-flight request counter checked
 * against `MAX_REQUESTS`, and the semaphore of `MAX_WORKERS` slots held while a
 * request runs.
 *
 * The event loop runs one step of one request at a time; each method below is
 * one such step, and a client calling them in any order plays the part of the
 * scheduler. A semaphore acquire that would have to wait is excluded by its
 * precondition: waiting is not modelled.
 */
module Admission {
  import opened Wrappers
  import opened Text
  import opened Transport

  const TooManyRequests := MiddlewareDict(Body(-503, "Too many requests", None))

  class ConcurrencyMiddleware {
    /** `MAX_REQUESTS`: the ceiling on admitted requests. */
    const maxRequests: int
    /** `MAX_WORKERS`: the capacity of the semaphore. */
    const maxWorkers: nat

    /** `self.current_requests`: requests admitted and not yet finished. */
    var currentRequests: int
    /** The semaphore's counter of free slots. */
    var freeSlots: int
    /** Admitted requests currently inside `async with self.semaphore`. */
    ghost var holders: int

    ghost predicate Valid()
      reads this
      // no more requests hold a slot than the semaphore has
      ensures Valid() ==> 0 <= holders <= maxWorkers
      // a full semaphore is exactly one whose slots are all held
      ensures Valid() ==> (freeSlots == 0 <==> holders == maxWorkers)
      // the ceiling is never exceeded
      ensures Valid() ==> currentRequests == 0 || currentRequests <= maxRequests
    {
      && 0 <= holders <= currentRequests
      && freeSlots + holders == maxWorkers
      && 0 <= freeSlots
      && (currentRequests == 0 || currentRequests <= maxRequests)
    }

    /** `__init__`: no request in flight, every slot free. */
    constructor (maxRequests: int, maxWorkers: nat)
      ensures Valid()
      ensures this.maxRequests == maxRequests && this.maxWorkers == maxWorkers
      ensures currentRequests == 0 && freeSlots == maxWorkers && holders == 0
    {
      this.maxRequests := maxRequests;
      this.maxWorkers := maxWorkers;
      currentRequests := 0;
      freeSlots := maxWorkers;
      holders := 0;
    }

    /** Check the ceiling and, when below it, take an admission ticket. */
    method Admit() returns (admitted: bool)
      requires Valid()
      modifies this`currentRequests
      ensures Valid()
      ensures admitted <==> old(currentRequests) < maxRequests
      ensures currentRequests == if admitted then old(currentRequests) + 1 else old(currentRequests)
    {
      if currentRequests >= maxRequests {
        admitted := false;
      } else {
        currentRequests := currentRequests + 1;
        admitted := true;
      }
    }

    /** Enter `async with self.semaphore` for an admitted request, when a slot is free. */
    method Acquire()
      requires Valid()
      requires holders < currentRequests  // an admitted request that holds no slot yet
      requires freeSlots > 0
      modifies this`freeSlots, this`holders
      ensures Valid()
      ensures freeSlots == old(freeSlots) - 1 && holders == old(holders) + 1
    {
      freeSlots := freeSlots - 1;
      holders := holders + 1;
    }

    /** Leave the `async with` block, normally or by an exception. */
    method Release()
      requires Valid()
      requires holders > 0
      modifies this`freeSlots, this`holders
      ensures Valid()
      ensures freeSlots == old(freeSlots) + 1 && holders == old(holders) - 1
    {
      freeSlots := freeSlots + 1;
      holders := holders - 1;
    }

    /** The `finally` clause: give the admission ticket back. */
    method Finish()
      requires Valid()
      requires holders < currentRequests  // an admitted request that holds no slot any more
      modifies this`currentRequests
      ensures Valid()
      ensures currentRequests == old(currentRequests) - 1
    {
      currentRequests := currentRequests - 1;
    }

    /**
     * `dispatch`: one whole request through the gate, where `next` is what the rest
     * of the stack produces for it. Paths under `/v1/sandbox/run` are refused with a
     * -503 dictionary at the ceiling; otherwise they run holding a slot. Either way,
     * and whether `next` answered or raised, both counters end where they started.
     */
    method Dispatch(path: string, next: Downstream) returns (out: Downstream)
      requires Valid()
      requires StartsWith(path, RunPrefix) && currentRequests < maxRequests ==> freeSlots > 0
      modifies this`currentRequests, this`freeSlots, this`holders
      ensures Valid()
      ensures currentRequests == old(currentRequests) && freeSlots == old(freeSlots) && holders == old(holders)
      ensures !StartsWith(path, RunPrefix) ==> out == next
      ensures StartsWith(path, RunPrefix) && old(currentRequests) >= maxRequests ==> out == Responded(TooManyRequests)
      ensures StartsWith(path, RunPrefix) && old(currentRequests) < maxRequests ==> out == next
    {
      if !StartsWith(path, RunPrefix) {
        return next;
      }
      var admitted := Admit();
      if !admitted {
        return Responded(TooManyRequests);
      }
      Acquire();
      out := next;  // `await call_next(request)`, or the exception it raised
      Release();
      Finish();
    }
  }

  /**
   * The application's middleware stack: `ConcurrencyMiddleware` was added last, so it
   * is outermost and sees a request before `AuthMiddleware` does; `endpoint` is what
   * the routed handler produces.
   */
  method Serve(gate: ConcurrencyMiddleware, path: string, header: Option<string>, apiKey: string, endpoint: Downstream)
    returns (out: Downstream)
    requires gate.Valid()
    requires StartsWith(path, RunPrefix) && gate.currentRequests < gate.maxRequests ==> gate.freeSlots > 0
    modifies gate
    ensures gate.Valid()
    ensures gate.currentRequests == old(gate.currentRequests) && gate.freeSlots == old(gate.freeSlots)
    ensures gate.holders == old(gate.holders)
    // at the ceiling, a run request is refused before its key is even looked at
    ensures StartsWith(path, RunPrefix) && old(gate.currentRequests) >= gate.maxRequests ==>
              out == Responded(TooManyRequests)
    ensures !(StartsWith(path, RunPrefix) && old(gate.currentRequests) >= gate.maxRequests) ==>
              out == AuthDispatch(path, header, apiKey, endpoint)
  {
    out := gate.Dispatch(path, AuthDispatch(path, header, apiKey, endpoint));
  }
}
