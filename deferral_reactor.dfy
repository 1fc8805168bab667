/**
 * The shared queue of connection callbacks (sgx/enclave/src/api/reactor/deferral.rs):
 * any thread may ask for a callback to run against a connection, named by
 * its token; the reactor thread takes the whole queue when its waker fires.
 * The queue has no limit.
 */
module DeferralReactor {

  /** A queued callback `T` for the connection with token `connId`. */
  datatype Pending<T> = Pending(connId: nat, callback: T)

  class DeferralReactor<T> {
    var pending: seq<Pending<T>>
    /** The readiness of the reactor waker. */
    var readable: bool

    /** `DeferralReactor::new`: nothing pending, the waker not set. */
    constructor ()
      ensures pending == [] && !readable
    {
      pending := [];
      readable := false;
    }

    /**
     * `defer`: appends the callback for `connId` and triggers the waker.
     * It never fails: a failed trigger is only logged.
     */
    method Defer(connId: nat, callback: T, triggerOk: bool)
      modifies this
      ensures pending == old(pending) + [Pending(connId, callback)]
      ensures readable == (old(readable) || triggerOk)
    {
      pending := pending + [Pending(connId, callback)];
      if triggerOk {
        readable := true;
      }
    }

    /**
     * `take_pending`: clears the waker's readiness first (a failure is only
     * logged), then hands out every entry in the order it was deferred and
     * leaves the queue empty.
     */
    method TakePending(clearOk: bool) returns (taken: seq<Pending<T>>)
      modifies this
      ensures taken == old(pending) && pending == []
      ensures readable == (old(readable) && !clearOk)
    {
      if clearOk {
        readable := false;
      }
      taken := pending;
      pending := [];
    }
  }
}
