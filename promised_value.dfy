/**
 * `PromisedValue`: a present value and a promise of the value that will
 * replace it. A promise is identified by an id; whether it is ready, and
 * with what result, is given to `Poll`. The deletion queue is the list of
 * values pushed to it (when it frees them is not modelled), and the error
 * log is the list of lines logged.
 */
module PromisedValue {
  import opened Wrappers

  /** `Promise<Result<T>>`: a background computation, by identity. */
  datatype Promise = Promise(id: nat)

  /** The line logged for a failed promise. */
  function PromiseError(message: string): string {
    "Error inside promise: " + message
  }

  class PromisedValue<T> {
    var present: Option<T>
    var future: Option<Promise>
    /** The values pushed to `deletion_queue`, in order. */
    var deletionQueue: seq<T>
    var logged: seq<string>

    /** `new`: nothing present and nothing promised. */
    constructor ()
      ensures present == None && future == None && deletionQueue == [] && logged == []
    {
      present := None;
      future := None;
      deletionQueue := [];
      logged := [];
    }

    /** `new_promise`: nothing present yet, `promise` running. */
    constructor NewPromise(promise: Promise)
      ensures present == None && future == Some(promise) && deletionQueue == [] && logged == []
    {
      present := None;
      future := Some(promise);
      deletionQueue := [];
      logged := [];
    }

    /**
     * `poll`. `ready` is what the running promise's `ready()` gives:
     * `None` while it is still running. When there is a ready promise, it
     * is consumed; the present value goes to the deletion queue and the
     * promised one takes its place, or nothing does if the promise
     * failed (its error is logged). Otherwise nothing changes.
     */
    method Poll(ready: Option<Result<T>>)
      modifies this
      ensures old(future).None? || ready.None? ==>
                present == old(present) && future == old(future)
                && deletionQueue == old(deletionQueue) && logged == old(logged)
      ensures old(future).Some? && ready.Some? ==>
                && future == None
                && deletionQueue == old(deletionQueue) + (if old(present).Some? then [old(present).value] else [])
                && (ready.value.Ok? ==> present == Some(ready.value.value) && logged == old(logged))
                && (ready.value.Err? ==> present == None && logged == old(logged) + [PromiseError(ready.value.message)])
    {
      if future.Some? && ready.Some? {
        future := None;
        var previous := Take();
        if previous.Some? {
          deletionQueue := deletionQueue + [previous.value];
        }
        match ready.value
        case Ok(v) =>
          present := Some(v);
        case Err(m) =>
          logged := logged + [PromiseError(m)];
          present := None;
      }
    }

    /** `value`: the present value, if any. */
    function Value(): (r: Option<T>)
      reads this
      ensures r.Some? <==> present.Some?
      ensures r.Some? ==> r.value == present.value
    {
      present
    }

    /** `take`: hand out the present value, leaving nothing present. */
    method Take() returns (r: Option<T>)
      modifies this`present
      ensures r == old(present) && present == None
    {
      r := present;
      present := None;
    }

    /** `promise`: `promise` replaces any promise still running, which is dropped. */
    method PromiseValue(promise: Promise)
      modifies this`future
      ensures future == Some(promise)
    {
      future := Some(promise);
    }
  }

  /**
   * Promising a value and polling once it is ready with `Ok(v)` makes `v`
   * the value, whatever was promised before, and queues the old value for
   * deletion.
   */
  method PromiseThenPoll<T>(p: PromisedValue<T>, promise: Promise, v: T)
    modifies p
    ensures p.Value() == Some(v) && p.future == None
    ensures p.deletionQueue == old(p.deletionQueue) + (if old(p.present).Some? then [old(p.present).value] else [])
  {
    p.PromiseValue(promise);
    p.Poll(Some(Ok(v)));
  }
}
