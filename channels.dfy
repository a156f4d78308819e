/**
  The Go runtime objects the subscription pump works with, reduced to the state the
  client observes: the stop channel, the buffered delivery channel and the websocket
  connection. Closing a Go channel twice, or sending on a closed one, panics; those
  operations therefore require the channel to be open.
 */
module Channels {

  import opened Protocol

  /** A `chan struct{}` used only as a signal: nothing is ever sent, so all that matters is whether it is closed. */
  class Signal {
    var closed: bool

    constructor ()
      ensures !closed
    {
      closed := false;
    }

    /** `close(ch)`. */
    method Close()
      requires !closed
      modifies this
      ensures closed
    {
      closed := true;
    }
  }

  /** The function closeChanFunc(ch) returns, invoked once: close `ch` unless it is closed already. */
  method CloseChanFunc(ch: Signal)
    modifies ch
    ensures ch.closed
    ensures old(ch.closed) ==> unchanged(ch)
  {
    if !ch.closed {
      ch.Close();
    }
  }

  /**
    The delivery channel of Responses. `sent` is everything sent on it, in order;
    how far the consumer has read and the buffer's capacity are not modelled.
   */
  class ResponseChan {
    var sent: seq<Response>
    var closed: bool

    constructor ()
      ensures sent == [] && !closed
    {
      sent, closed := [], false;
    }

    /** `ch <- r`. */
    method Send(r: Response)
      requires !closed
      modifies this
      ensures sent == old(sent) + [r] && !closed
    {
      sent := sent + [r];
    }

    /** `close(ch)`. */
    method Close()
      requires !closed
      modifies this
      ensures closed && sent == old(sent)
    {
      closed := true;
    }
  }

  /**
    An open websocket connection. `incoming` is what the peer sends before it goes
    away; once those are read, or once the connection is closed, every read fails
    with `endOfStream`. `releases` counts calls of Close.
   */
  class Conn {
    const incoming: seq<ReadResult>
    const endOfStream: string
    var pos: nat
    var closed: bool
    ghost var releases: nat

    ghost predicate Valid()
      reads this
    {
      pos <= |incoming|
    }

    constructor (incoming: seq<ReadResult>, endOfStream: string)
      ensures Valid()
      ensures this.incoming == incoming && this.endOfStream == endOfStream
      ensures pos == 0 && !closed && releases == 0
    {
      this.incoming, this.endOfStream := incoming, endOfStream;
      pos, closed, releases := 0, false, 0;
    }

    /** `conn.ReadJSON(&msg)`. */
    method ReadJSON() returns (r: ReadResult)
      requires Valid()
      modifies this
      ensures Valid() && closed == old(closed) && releases == old(releases)
      ensures if !closed && old(pos) < |incoming|
              then r == incoming[old(pos)] && pos == old(pos) + 1
              else r == ReadFailed(endOfStream) && pos == old(pos)
    {
      if !closed && pos < |incoming| {
        r := incoming[pos];
        pos := pos + 1;
      } else {
        r := ReadFailed(endOfStream);
      }
    }

    /** `conn.Close()`. */
    method Close()
      modifies this
      ensures closed && pos == old(pos) && releases == old(releases) + 1
    {
      closed := true;
      releases := releases + 1;
    }
  }
}
