/**
 * The per-connection bookkeeping of the API server
 * (sgx/enclave/src/api/server/connection.rs): the bounded queues of
 * deferred connection actions and spawned futures that other threads feed
 * into a connection, and the close flags of the TLS connection itself.
 * Sockets, the TLS engine and the event loop are replaced by what they
 * report (a write that failed, which directions the TLS engine wants).
 */
module Connection {
  import opened Wrappers
  import opened Bytes
  import opened Results

  /** The error for a full queue: "unable to queue <what>, limit exceeded: <max>". */
  function LimitExceeded(what: string, max: nat): (e: Error)
    ensures e.Kind() == ServerFault && HttpStatus(e.Kind()) == 500
    ensures e.message == "unable to queue " + what + ", limit exceeded: " + NatToString(max)
  {
    NewErrorWithKind(ServerFault, "unable to queue " + what + ", limit exceeded: " + NatToString(max))
  }

  /** A queue of length `len` under the optional limit `max` takes no more entries. */
  predicate Full(len: nat, max: Option<nat>)
  {
    max.Some? && len >= max.value
  }

  /** A queue of length `len` keeps to the optional limit `max`. */
  predicate WithinLimit(len: nat, max: Option<nat>)
  {
    max.Some? ==> len <= max.value
  }

  /**
   * `Deferral`: actions of type `D` to run against the connection and
   * futures of type `F` to poll on its thread, each queue optionally
   * bounded.  `readable` is the readiness of the reactor waker that tells
   * the connection's thread there is work; triggering it can fail, which
   * is only logged.
   */
  class Deferral<D, F> {
    var defers: seq<D>
    var futures: seq<F>
    const maxDefersQueue: Option<nat>
    const maxFuturesQueue: Option<nat>
    var readable: bool

    /** Both queues keep to their limits. */
    ghost predicate Bounded()
      reads this
    {
      WithinLimit(|defers|, maxDefersQueue) && WithinLimit(|futures|, maxFuturesQueue)
    }

    /** `Deferral::new`: empty queues, the waker not set. */
    constructor (maxDefersQueue: Option<nat>, maxFuturesQueue: Option<nat>)
      ensures defers == [] && futures == [] && !readable
      ensures this.maxDefersQueue == maxDefersQueue && this.maxFuturesQueue == maxFuturesQueue
      ensures Bounded()
    {
      defers := [];
      futures := [];
      this.maxDefersQueue := maxDefersQueue;
      this.maxFuturesQueue := maxFuturesQueue;
      readable := false;
    }

    /**
     * `defer`: with the deferral queue at its limit the call fails with a
     * server fault and changes nothing; otherwise the action goes to the
     * end of the queue and the waker is triggered, and the call succeeds
     * even when the trigger fails.
     */
    method Defer(d: D, triggerOk: bool) returns (r: Result<(), Error>)
      modifies this
      ensures Full(|old(defers)|, maxDefersQueue) ==>
                r == Err(LimitExceeded("deferral", maxDefersQueue.value)) && unchanged(this)
      ensures !Full(|old(defers)|, maxDefersQueue) ==>
                r.Ok? && defers == old(defers) + [d] && futures == old(futures)
                && readable == (old(readable) || triggerOk)
      ensures old(Bounded()) ==> Bounded()
    {
      if maxDefersQueue.Some? && |defers| >= maxDefersQueue.value {
        return Err(LimitExceeded("deferral", maxDefersQueue.value));
      }
      defers := defers + [d];
      if triggerOk {
        readable := true;
      }
      r := Ok(());
    }

    /**
     * `spawn` as the source writes it: the futures queue is bounded by
     * comparing the length of the DEFERRAL queue with the futures limit,
     * so the futures queue can grow past its limit.
     */
    method SpawnAsWritten(f: F, triggerOk: bool) returns (r: Result<(), Error>)
      modifies this
      ensures Full(|old(defers)|, maxFuturesQueue) ==>
                r == Err(LimitExceeded("future", maxFuturesQueue.value)) && unchanged(this)
      ensures !Full(|old(defers)|, maxFuturesQueue) ==>
                r.Ok? && futures == old(futures) + [f] && defers == old(defers)
                && readable == (old(readable) || triggerOk)
    {
      if maxFuturesQueue.Some? && |defers| >= maxFuturesQueue.value {
        return Err(LimitExceeded("future", maxFuturesQueue.value));
      }
      futures := futures + [f];
      if triggerOk {
        readable := true;
      }
      r := Ok(());
    }

    /**
     * `spawn` as intended: the futures queue is bounded by its own length,
     * which keeps both queues within their limits.
     */
    method Spawn(f: F, triggerOk: bool) returns (r: Result<(), Error>)
      modifies this
      ensures Full(|old(futures)|, maxFuturesQueue) ==>
                r == Err(LimitExceeded("future", maxFuturesQueue.value)) && unchanged(this)
      ensures !Full(|old(futures)|, maxFuturesQueue) ==>
                r.Ok? && futures == old(futures) + [f] && defers == old(defers)
                && readable == (old(readable) || triggerOk)
      ensures old(Bounded()) ==> Bounded()
    {
      if maxFuturesQueue.Some? && |futures| >= maxFuturesQueue.value {
        return Err(LimitExceeded("future", maxFuturesQueue.value));
      }
      futures := futures + [f];
      if triggerOk {
        readable := true;
      }
      r := Ok(());
    }

    /**
     * `take_pending`: clears the waker's readiness (a failure is only
     * logged), then hands out both queues in the order they were filled and
     * leaves them empty.
     */
    method TakePending(clearOk: bool) returns (pendingDefers: seq<D>, pendingFutures: seq<F>)
      modifies this
      ensures pendingDefers == old(defers) && pendingFutures == old(futures)
      ensures defers == [] && futures == []
      ensures readable == (old(readable) && !clearOk)
      ensures Bounded()
    {
      if clearOk {
        readable := false;
      }
      pendingDefers, pendingFutures := defers, futures;
      defers, futures := [], [];
    }
  }

  /**
   * With a futures limit of 1 and an empty deferral queue, two calls to
   * `spawn` as written both succeed and leave two futures queued.
   */
  method SpawnAsWrittenOverflows<F>(f: F) returns (d: Deferral<(), F>)
    ensures d.maxFuturesQueue == Some(1) && |d.futures| == 2
    ensures !d.Bounded()
  {
    d := new Deferral(Option.None, Some(1));
    var r1 := d.SpawnAsWritten(f, true);
    var r2 := d.SpawnAsWritten(f, true);
    assert r1.Ok? && r2.Ok?;
  }

  /** What the TLS engine was handed: application data, or the close_notify alert. */
  datatype TlsRecord = AppData(data: seq<Byte>) | CloseNotify

  /** The number of close_notify alerts among `records`. */
  function CloseNotifies(records: seq<TlsRecord>): (n: nat)
    ensures n <= |records|
    ensures n == 0 <==> forall i :: 0 <= i < |records| ==> records[i] != CloseNotify
  {
    if records == [] then 0
    else CloseNotifies(records[..|records| - 1]) + (if records[|records| - 1] == CloseNotify then 1 else 0)
  }

  lemma CloseNotifiesAppend(records: seq<TlsRecord>, r: TlsRecord)
    ensures CloseNotifies(records + [r]) == CloseNotifies(records) + (if r == CloseNotify then 1 else 0)
  {
    assert (records + [r])[..|records|] == records;
  }

  /** The readiness the connection registers for: `mio::Ready`. */
  datatype Interest = Readable | Writable | ReadWrite

  /**
   * `event_set`: read and write when the TLS engine wants both, write when
   * it wants only to write, and read otherwise.
   */
  function EventSet(wantsRead: bool, wantsWrite: bool): (i: Interest)
    ensures i == ReadWrite <==> wantsRead && wantsWrite
    ensures i == Writable <==> !wantsRead && wantsWrite
    ensures i == Readable <==> !wantsWrite
  {
    if wantsRead && wantsWrite then ReadWrite
    else if wantsWrite then Writable
    else Readable
  }

  /** The error `check_timeout` reports for a request past its deadline. */
  function RequestTimedOut(): (e: Error)
    ensures e.Kind() == TimedOut && HttpStatus(e.Kind()) == 408
    ensures e.message == "request timed out"
  {
    NewErrorWithKind(TimedOut, "request timed out")
  }

  /**
   * A TLS connection: `closing` asks the server to tear it down, `closed`
   * records that it was, and `closeNotifySent` guards the close_notify
   * alert.  `tls` is what was handed to the TLS engine, `isWebsocket`
   * whether a websocket is attached, and `requestDeadline` the deadline of
   * the request being read, if any.
   */
  class Connection {
    var closing: bool
    var closed: bool
    var closeNotifySent: bool
    var tls: seq<TlsRecord>
    const isWebsocket: bool
    const requestDeadline: Option<nat>

    /** close_notify goes out at most once, and only a connection that sent it is closed. */
    ghost predicate Valid()
      reads this
    {
      CloseNotifies(tls) <= 1
      && (closeNotifySent <==> CloseNotifies(tls) == 1)
      && (closed ==> closeNotifySent)
    }

    constructor (isWebsocket: bool, requestDeadline: Option<nat>)
      ensures Valid() && !closing && !closed && !closeNotifySent && tls == []
      ensures this.isWebsocket == isWebsocket && this.requestDeadline == requestDeadline
    {
      closing, closed, closeNotifySent := false, false, false;
      tls := [];
      this.isWebsocket := isWebsocket;
      this.requestDeadline := requestDeadline;
    }

    /** `send_close_notify`: the alert is queued only the first time. */
    method SendCloseNotify()
      requires Valid()
      modifies this
      ensures Valid() && closeNotifySent
      ensures tls == if old(closeNotifySent) then old(tls) else old(tls) + [CloseNotify]
      ensures closing == old(closing) && closed == old(closed)
    {
      if !closeNotifySent {
        CloseNotifiesAppend(tls, CloseNotify);
        tls := tls + [CloseNotify];
        closeNotifySent := true;
      }
    }

    /** `close`: sends close_notify (once), shuts the socket and marks the connection closed. */
    method Close()
      requires Valid()
      modifies this
      ensures Valid() && closed && closeNotifySent
      ensures tls == if old(closeNotifySent) then old(tls) else old(tls) + [CloseNotify]
      ensures closing == old(closing)
    {
      SendCloseNotify();
      closed := true;
    }

    /**
     * `write`: hands the plaintext to the TLS engine; a failed write marks
     * the connection as closing.
     */
    method Write(plaintext: seq<Byte>, writeOk: bool)
      requires Valid()
      modifies this
      ensures Valid()
      ensures writeOk ==> tls == old(tls) + [AppData(plaintext)] && closing == old(closing)
      ensures !writeOk ==> tls == old(tls) && closing
      ensures closed == old(closed) && closeNotifySent == old(closeNotifySent)
    {
      if writeOk {
        CloseNotifiesAppend(tls, AppData(plaintext));
        tls := tls + [AppData(plaintext)];
      } else {
        closing := true;
      }
    }

    /** `write_tls_and_handle_error`: a failed flush to the socket marks the connection as closing. */
    method WriteTlsAndHandleError(flushOk: bool)
      modifies this
      ensures closing == (old(closing) || !flushOk)
      ensures closed == old(closed) && closeNotifySent == old(closeNotifySent) && tls == old(tls)
    {
      if !flushOk {
        closing := true;
      }
    }

    /**
     * `send_response`: nothing on a closed connection; otherwise the body
     * is written, followed by close_notify when the response asks to close.
     */
    method SendResponse(res: ResponseBody, writeOk: bool)
      requires Valid()
      modifies this
      ensures Valid() && closed == old(closed)
      ensures old(closed) ==> unchanged(this)
      ensures !old(closed) ==>
                tls == (if writeOk then old(tls) + [AppData(res.body)] else old(tls))
                       + (if res.close && !old(closeNotifySent) then [CloseNotify] else [])
                && closing == (old(closing) || !writeOk)
                && closeNotifySent == (old(closeNotifySent) || res.close)
    {
      if closed {
        return;
      }
      Write(res.body, writeOk);
      if res.close {
        SendCloseNotify();
      }
    }

    /**
     * `handle_error`.  On a websocket only a closed-websocket error does
     * anything: it marks the connection as closing.  On a plain connection
     * that is not closed the error is answered with its encoded response;
     * `encoded` is what encoding the error response gave, and an encoding
     * failure is only logged.
     */
    method HandleError(err: Error, encoded: Result<ResponseBody, string>, writeOk: bool)
      requires Valid()
      modifies this
      ensures Valid() && closed == old(closed)
      ensures isWebsocket ==> tls == old(tls) && closeNotifySent == old(closeNotifySent)
                              && closing == (old(closing) || err.Kind() == WSClosed)
      ensures !isWebsocket && (old(closed) || encoded.Err?) ==> unchanged(this)
      ensures !isWebsocket && !old(closed) && encoded.Ok? ==>
                tls == (if writeOk then old(tls) + [AppData(encoded.value.body)] else old(tls))
                       + (if encoded.value.close && !old(closeNotifySent) then [CloseNotify] else [])
                && closing == (old(closing) || !writeOk)
                && closeNotifySent == (old(closeNotifySent) || encoded.value.close)
    {
      if isWebsocket {
        if err.Kind() == WSClosed {
          closing := true;
          return;
        }
        return;
      }
      if closed {
        return;
      }
      match encoded {
        case Ok(res) =>
          SendResponse(res, writeOk);
        case Err(_) =>
      }
    }

    /**
     * `check_timeout`: a request past its deadline is answered with a
     * timed-out error, the TLS output is flushed and the connection is
     * closed; `encoded` is the encoded timed-out response.  Only an open
     * plain connection writes that answer, and close_notify follows it
     * unless it already went out.
     */
    method CheckTimeout(now: nat, encoded: Result<ResponseBody, string>, writeOk: bool, flushOk: bool)
      requires Valid()
      modifies this
      ensures Valid()
      ensures (requestDeadline.None? || now <= requestDeadline.value) ==> unchanged(this)
      ensures requestDeadline.Some? && now > requestDeadline.value ==>
                closed && closeNotifySent && CloseNotifies(tls) == 1
      ensures requestDeadline.Some? && now > requestDeadline.value ==>
                var answered := !isWebsocket && !old(closed) && encoded.Ok?;
                var written := if answered && writeOk then old(tls) + [AppData(encoded.value.body)] else old(tls);
                tls == written + (if old(closeNotifySent) then [] else [CloseNotify])
                && closing == (old(closing) || (answered && !writeOk) || !flushOk)
    {
      if requestDeadline.Some? && now > requestDeadline.value {
        HandleError(RequestTimedOut(), encoded, writeOk);
        WriteTlsAndHandleError(flushOk);
        Close();
      }
    }
  }
}
