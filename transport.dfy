/**
 * The client transport over one channel: `send` registers the request with
 * the tracker, writes it, and hands back the future its response will
 * complete. The channel write is foreign I/O; its outcome is an input.
 */
module Transport {
  import opened Wrappers
  import opened Lang
  import opened Commands
  import opened InFlight

  /** How `channel.writeAndFlush(request)` turns out. */
  datatype WriteOutcome =
    | Written                           // the write succeeds
    | WriteThrows(error: Throwable)     // the call itself throws
    | WriteFailsLater(cause: Throwable) // the write fails; the listener sees the cause

  /** The connection; only whether it is open matters here. */
  class Channel {
    var open: bool

    constructor ()
      ensures open
    {
      open := true;
    }

    method Close()
      modifies this
      ensures !open
    {
      open := false;
    }
  }

  class NettyTransport {
    const channel: Channel
    const inFlightRequests: InFlightRequests

    constructor (channel: Channel, inFlightRequests: InFlightRequests)
      ensures this.channel == channel && this.inFlightRequests == inFlightRequests
    {
      this.channel := channel;
      this.inFlightRequests := inFlightRequests;
    }

    /**
     * `send(request)`: never throws and always returns the future it created.
     *  - no free permit: the put throws; the entry under the request's id is
     *    removed (with its permit, if there was one) and the future fails;
     *  - the write throws: the entry just registered is removed again and the
     *    future fails with the write's exception;
     *  - the write fails later: the future fails with the cause and the channel
     *    is closed, but the entry stays until a response or the sweep removes it;
     *  - the write succeeds: the entry stays and the future is pending.
     */
    method Send(request: Command, write: WriteOutcome, now: int) returns (future: Future)
      modifies inFlightRequests, channel
      ensures fresh(future)
      ensures
        var id := request.header.requestId;
        var before := old(inFlightRequests.futureMap);
        var registered := before[id := ResponseFuture(id, future, now)];
        if old(inFlightRequests.permits) <= 0 then
          && inFlightRequests.futureMap == before - {id}
          && inFlightRequests.permits == old(inFlightRequests.permits) + (if id in before then 1 else 0)
          && future.state == Failed(Timeout)
          && channel.open == old(channel.open)
        else
          match write
          case Written =>
            && inFlightRequests.futureMap == registered
            && inFlightRequests.permits == old(inFlightRequests.permits) - 1
            && future.state == Pending
            && channel.open == old(channel.open)
          case WriteThrows(error) =>
            && inFlightRequests.futureMap == before - {id}
            && inFlightRequests.permits == old(inFlightRequests.permits)
            && future.state == Failed(error)
            && channel.open == old(channel.open)
          case WriteFailsLater(cause) =>
            && inFlightRequests.futureMap == registered
            && inFlightRequests.permits == old(inFlightRequests.permits) - 1
            && future.state == Failed(cause)
            && !channel.open
      ensures old(inFlightRequests.Balanced()) && request.header.requestId !in old(inFlightRequests.futureMap) ==>
        inFlightRequests.Balanced()
    {
      future := new Future();
      var id := request.header.requestId;
      var thrown: Option<Throwable> := None;
      var put := inFlightRequests.Put(ResponseFuture(id, future, now));
      if put.Fail? {
        thrown := Some(put.error);
      } else {
        match write
        case Written =>
        case WriteThrows(error) =>
          thrown := Some(error);
        case WriteFailsLater(cause) =>
          var _ := future.CompleteExceptionally(cause);
          channel.Close();
      }
      if thrown.Some? {
        var _ := inFlightRequests.Remove(id);
        var _ := future.CompleteExceptionally(thrown.value);
      }
    }
  }
}
