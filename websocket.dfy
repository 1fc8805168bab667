/**
 * The server side of a websocket (sgx/enclave/src/api/server/websocket.rs):
 * the handlers subscribed to incoming messages, the messages sent before
 * the connection was activated, and the deferral queue shared with the
 * connection, through which activated sends and subscriber calls reach the
 * connection's thread.  Frames on the wire are replaced by what reading or
 * writing them reported.
 */
module WebSocket {
  import opened Wrappers
  import opened Bytes
  import opened Results
  import opened Connection

  /** A websocket message, carried as its payload. */
  type Message = seq<Byte>

  /** What a websocket defers to its connection: sending `msg` on it. */
  datatype ConnAction = WsSend(msg: Message)

  /** A spawned subscriber call: `handler` run with the websocket's context and the message. */
  datatype SubscriberTask<H, C> = SubscriberTask(handler: H, context: C, msg: Message)

  /** The error of a failed frame write; `detail` is the library's description. */
  function WriteFailed(detail: string): (e: Error)
    ensures e.Kind() == WSFault && e.message == "failed to write ws messages: " + detail
  {
    NewErrorWithKind(WSFault, "failed to write ws messages: " + detail)
  }

  /** The error of a failed frame read; `detail` is the library's description. */
  function ReadFailed(detail: string): (e: Error)
    ensures e.Kind() == WSFault && e.message == "failed to read ws message: " + detail
  {
    NewErrorWithKind(WSFault, "failed to read ws message: " + detail)
  }

  /** One subscriber call per subscription, in subscription order. */
  function Broadcast<H, C>(subscriptions: seq<H>, context: C, msg: Message): (tasks: seq<SubscriberTask<H, C>>)
    ensures |tasks| == |subscriptions|
    ensures forall i :: 0 <= i < |tasks| ==> tasks[i] == SubscriberTask(subscriptions[i], context, msg)
  {
    seq(|subscriptions|, i requires 0 <= i < |subscriptions| => SubscriberTask(subscriptions[i], context, msg))
  }

  /** The messages buffered before activation. */
  function Buffered(pending: Option<seq<Message>>): (msgs: seq<Message>)
    ensures pending.Some? ==> msgs == pending.value
    ensures pending.None? ==> msgs == []
  {
    if pending.Some? then pending.value else []
  }

  class WebSocket<H, C> {
    const deferral: Deferral<ConnAction, SubscriberTask<H, C>>
    var subscriptions: seq<H>
    var context: Option<C>
    var pending: Option<seq<Message>>
    var ready: bool
    /** The messages written to the stream, oldest first. */
    var written: seq<Message>

    /** `WebSocket::new`: no subscriber, no context, nothing buffered, not ready. */
    constructor (deferral: Deferral<ConnAction, SubscriberTask<H, C>>)
      ensures this.deferral == deferral
      ensures subscriptions == [] && context.None? && pending.None? && !ready && written == []
    {
      this.deferral := deferral;
      subscriptions := [];
      context := Option.None;
      pending := Option.None;
      ready := false;
      written := [];
    }

    /** `subscribe`: appends the handler; it always succeeds. */
    method Subscribe(handler: H) returns (r: Result<(), Error>)
      modifies this
      ensures r.Ok? && subscriptions == old(subscriptions) + [handler]
      ensures context == old(context) && pending == old(pending) && ready == old(ready) && written == old(written)
    {
      subscriptions := subscriptions + [handler];
      r := Ok(());
    }

    /**
     * `send`.  Before activation the message is buffered (the buffer is
     * created on first use) and the call succeeds.  After activation
     * nothing is buffered: the send is deferred to the connection and the
     * call returns what deferring returned.
     */
    method Send(msg: Message, triggerOk: bool) returns (r: Result<(), Error>)
      modifies this, deferral
      ensures subscriptions == old(subscriptions) && context == old(context) && ready == old(ready)
      ensures written == old(written)
      ensures !old(ready) ==> r.Ok? && pending == Some(Buffered(old(pending)) + [msg]) && unchanged(deferral)
      ensures old(ready) && Full(|old(deferral.defers)|, deferral.maxDefersQueue) ==>
                pending == old(pending) && unchanged(deferral)
                && r == Err(LimitExceeded("deferral", deferral.maxDefersQueue.value))
      ensures old(ready) && !Full(|old(deferral.defers)|, deferral.maxDefersQueue) ==>
                pending == old(pending) && r.Ok?
                && deferral.defers == old(deferral.defers) + [WsSend(msg)]
                && deferral.futures == old(deferral.futures)
                && deferral.readable == (old(deferral.readable) || triggerOk)
      ensures old(deferral.Bounded()) ==> deferral.Bounded()
    {
      if !ready {
        if pending.None? {
          pending := Some([]);
        }
        pending := Some(pending.value + [msg]);
        return Ok(());
      }
      r := deferral.Defer(WsSend(msg), triggerOk);
    }

    /**
     * `activate`: stores the context, becomes ready and writes the buffered
     * messages in the order they were sent, leaving no buffer.  The write
     * of message `failAt` fails, if there is one: the call then returns
     * that error and the messages after it are dropped.
     */
    method Activate(ctx: C, failAt: Option<nat>, detail: string) returns (r: Result<(), Error>)
      modifies this
      ensures context == Some(ctx) && ready && pending.None?
      ensures subscriptions == old(subscriptions)
      ensures (failAt.None? || failAt.value >= |Buffered(old(pending))|) ==>
                r.Ok? && written == old(written) + Buffered(old(pending))
      ensures failAt.Some? && failAt.value < |Buffered(old(pending))| ==>
                r == Err(WriteFailed(detail))
                && written == old(written) + Buffered(old(pending))[..failAt.value]
    {
      context := Some(ctx);
      ready := true;
      if pending.Some? {
        var msgs := pending.value;
        pending := Option.None;
        var i := 0;
        while i < |msgs|
          invariant 0 <= i <= |msgs|
          invariant msgs == Buffered(old(pending))
          invariant failAt.Some? ==> i <= failAt.value
          invariant written == old(written) + msgs[..i]
          invariant context == Some(ctx) && ready && pending.None? && subscriptions == old(subscriptions)
        {
          if failAt == Some(i) {
            return Err(WriteFailed(detail));
          }
          written := written + [msgs[i]];
          assert msgs[..i + 1] == msgs[..i] + [msgs[i]];
          i := i + 1;
        }
        assert msgs[..|msgs|] == msgs;
      }
      r := Ok(());
    }

    /**
     * `_broadcast_msg_to_subscribers`: one spawned call per subscription,
     * in order, each through the deferral's `spawn` as the source writes it
     * (connection.rs:666).  That check looks at the deferral queue, which a
     * broadcast does not change, so either every call is queued or the
     * first one is refused and nothing is: a full deferral queue refuses
     * a broadcast however empty the futures queue is, and an empty one
     * accepts it however full the futures queue is.
     */
    method BroadcastToSubscribers(ctx: C, msg: Message, triggerOk: bool) returns (r: Result<(), Error>)
      modifies deferral
      ensures var tasks := Broadcast(subscriptions, ctx, msg);
              |tasks| > 0 && Full(|old(deferral.defers)|, deferral.maxFuturesQueue) ==>
                r == Err(LimitExceeded("future", deferral.maxFuturesQueue.value)) && unchanged(deferral)
      ensures var tasks := Broadcast(subscriptions, ctx, msg);
              |tasks| == 0 || !Full(|old(deferral.defers)|, deferral.maxFuturesQueue) ==>
                r.Ok? && deferral.futures == old(deferral.futures) + tasks
                && deferral.defers == old(deferral.defers)
                && deferral.readable == (old(deferral.readable) || (triggerOk && |tasks| > 0))
    {
      var tasks := Broadcast(subscriptions, ctx, msg);
      var i := 0;
      while i < |tasks|
        invariant 0 <= i <= |tasks|
        invariant deferral.futures == old(deferral.futures) + tasks[..i]
        invariant deferral.defers == old(deferral.defers)
        invariant deferral.readable == (old(deferral.readable) || (triggerOk && i > 0))
        invariant i > 0 ==> !Full(|old(deferral.defers)|, deferral.maxFuturesQueue)
        invariant i == 0 ==> unchanged(deferral)
      {
        var spawned := deferral.SpawnAsWritten(tasks[i], triggerOk);
        if spawned.Err? {
          return spawned;
        }
        assert tasks[..i + 1] == tasks[..i] + [tasks[i]];
        i := i + 1;
      }
      assert tasks[..|tasks|] == tasks;
      r := Ok(());
    }

    /**
     * `handle`: a message read from the stream is broadcast to the
     * subscribers with the stored context (which activation must have
     * set); a failed read is a websocket fault and queues nothing.
     */
    method Handle(read: Result<Message, string>, triggerOk: bool) returns (r: Result<(), Error>)
      requires read.Ok? ==> context.Some?
      modifies deferral
      ensures read.Err? ==> r == Err(ReadFailed(read.error)) && unchanged(deferral)
      ensures read.Ok? && |subscriptions| > 0 && Full(|old(deferral.defers)|, deferral.maxFuturesQueue) ==>
                r == Err(LimitExceeded("future", deferral.maxFuturesQueue.value)) && unchanged(deferral)
      ensures read.Ok? && (|subscriptions| == 0 || !Full(|old(deferral.defers)|, deferral.maxFuturesQueue)) ==>
                r.Ok? && deferral.futures == old(deferral.futures) + Broadcast(subscriptions, context.value, read.value)
                && deferral.defers == old(deferral.defers)
    {
      match read {
        case Ok(msg) =>
          r := BroadcastToSubscribers(context.value, msg, triggerOk);
        case Err(detail) =>
          r := Err(ReadFailed(detail));
      }
    }
  }
}
