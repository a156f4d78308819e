/**
  The subscription pump of client.go (lookReadMessage), with its two goroutines run
  as one sequential loop: each iteration reads one envelope, then either observes
  the stop signal and quits, or publishes the response and quits after an error
  response. The caller's stopWatch() is the `callerStopsAt` parameter: the caller
  raises the stop signal just before the pump's check in iteration `callerStopsAt`.
 */
module Pump {

  import opened Protocol
  import opened Channels

  /**
    What the pump's successive reads classify to: one response per envelope the
    peer sends, then the response to the failed read that follows them.
   */
  function Responses(incoming: seq<ReadResult>, endOfStream: string, decode: Decoder): (rs: seq<Response>)
    ensures |rs| == |incoming| + 1
    ensures forall i :: 0 <= i < |incoming| ==> rs[i] == ReadConnResponse(incoming[i], decode)
    ensures rs[|incoming|] == ReadConnResponse(ReadFailed(endOfStream), decode)
    ensures HasErrors(rs[|incoming|])
  {
    seq(|incoming|, i requires 0 <= i < |incoming| => ReadConnResponse(incoming[i], decode))
      + [ReadConnResponse(ReadFailed(endOfStream), decode)]
  }

  /**
    The responses the pump publishes when it reads `rs` and the caller stops it
    before its check number `stopAt`: one at a time, up to and including the first
    one that carries errors.
   */
  function Delivered(rs: seq<Response>, stopAt: nat): seq<Response>
  {
    if rs == [] || stopAt == 0 then []
    else if HasErrors(rs[0]) then [rs[0]]
    else [rs[0]] + Delivered(rs[1..], stopAt - 1)
  }

  /** The index of the first response carrying errors, or |rs| when there is none. */
  function FirstError(rs: seq<Response>): (e: nat)
    ensures e <= |rs|
    ensures forall j :: 0 <= j < e ==> !HasErrors(rs[j])
    ensures e < |rs| ==> HasErrors(rs[e])
  {
    if rs == [] then 0
    else if HasErrors(rs[0]) then 0
    else 1 + FirstError(rs[1..])
  }

  function Min(a: nat, b: nat): nat {
    if a <= b then a else b
  }

  /** How many responses get through: all up to the first error, and no more than the caller allows. */
  function DeliveredCount(rs: seq<Response>, stopAt: nat): (n: nat)
    ensures n <= |rs| && n <= stopAt
  {
    Min(stopAt, if FirstError(rs) < |rs| then FirstError(rs) + 1 else |rs|)
  }

  /** Delivered, in closed form: the prefix of `rs` of DeliveredCount responses. */
  lemma {:induction false} DeliveredIsPrefix(rs: seq<Response>, stopAt: nat)
    ensures Delivered(rs, stopAt) == rs[..DeliveredCount(rs, stopAt)]
  {
    if rs == [] || stopAt == 0 {
    } else if HasErrors(rs[0]) {
    } else {
      DeliveredIsPrefix(rs[1..], stopAt - 1);
      assert FirstError(rs) == 1 + FirstError(rs[1..]);
      assert rs[..DeliveredCount(rs, stopAt)] == [rs[0]] + rs[1..][..DeliveredCount(rs[1..], stopAt - 1)];
    }
  }

  /** What is published is a prefix of what is read, in the same order, and no more than the caller allows. */
  lemma DeliveredInReadOrder(rs: seq<Response>, stopAt: nat)
    ensures Delivered(rs, stopAt) <= rs
    ensures |Delivered(rs, stopAt)| <= stopAt
  {
    DeliveredIsPrefix(rs, stopAt);
  }

  /** A published response carrying errors is the last one published. */
  lemma ErrorResponseIsLast(rs: seq<Response>, stopAt: nat, j: nat)
    requires j < |Delivered(rs, stopAt)| && HasErrors(Delivered(rs, stopAt)[j])
    ensures j == |Delivered(rs, stopAt)| - 1
  {
    DeliveredIsPrefix(rs, stopAt);
  }

  /** When the first error response comes before the caller's stop, it is published, and last. */
  lemma FirstErrorIsPublished(rs: seq<Response>, stopAt: nat)
    requires FirstError(rs) < |rs| && FirstError(rs) < stopAt
    ensures |Delivered(rs, stopAt)| == FirstError(rs) + 1
    ensures Delivered(rs, stopAt)[FirstError(rs)] == rs[FirstError(rs)]
  {
    DeliveredIsPrefix(rs, stopAt);
  }

  /**
    A response without errors followed by one with errors: the pump publishes
    exactly these two, in that order, unless the caller stops it before its
    second check.
   */
  lemma DataThenErrorDeliversBoth(data: Response, failure: Response, rest: seq<Response>, stopAt: nat)
    requires !HasErrors(data) && HasErrors(failure) && stopAt >= 2
    ensures Delivered([data, failure] + rest, stopAt) == [data, failure]
  {
    var rs := [data, failure] + rest;
    assert rs[1..] == [failure] + rest;
  }

  /**
    When the first `n` responses carry no errors, the caller stopping at check `n`
    leaves exactly those published, and an error response at position `n` is
    published as the last one.
   */
  lemma {:induction false} DeliveredCleanPrefix(rs: seq<Response>, n: nat, stopAt: nat)
    requires n < |rs| && n <= stopAt
    requires forall j :: 0 <= j < n ==> !HasErrors(rs[j])
    ensures n == stopAt ==> Delivered(rs, stopAt) == rs[..n]
    ensures n < stopAt && HasErrors(rs[n]) ==> Delivered(rs, stopAt) == rs[..n + 1]
    decreases n
  {
    if n > 0 {
      DeliveredCleanPrefix(rs[1..], n - 1, stopAt - 1);
      assert rs[..n] == [rs[0]] + rs[1..][..n - 1];
      assert rs[..n + 1] == [rs[0]] + rs[1..][..n];
    }
  }

  /**
    The select's default branch: publish the response, and raise the stop signal
    when it carries errors.
   */
  method Publish(respChan: ResponseChan, stop: Signal, resp: Response) returns (done: bool)
    requires !respChan.closed && !stop.closed
    modifies respChan, stop
    ensures respChan.sent == old(respChan.sent) + [resp] && !respChan.closed
    ensures done == HasErrors(resp) && stop.closed == done
  {
    respChan.Send(resp);
    done := HasErrors(resp);
    if done {
      CloseChanFunc(stop);
    }
  }

  /**
    lookReadMessage, run sequentially. The pump publishes exactly Delivered of the
    responses it reads; the stop signal is raised (once, by whoever comes first),
    then the connection is released once and the delivery channel closed.
   */
  method LookReadMessage(conn: Conn, respChan: ResponseChan, stop: Signal, decode: Decoder, callerStopsAt: nat)
    requires conn.Valid() && conn.pos == 0 && !conn.closed
    requires !respChan.closed && !stop.closed
    modifies conn, respChan, stop
    ensures respChan.sent == old(respChan.sent) + Delivered(Responses(conn.incoming, conn.endOfStream, decode), callerStopsAt)
    ensures stop.closed && respChan.closed && conn.closed
    ensures conn.releases == old(conn.releases) + 1
  {
    ghost var rs := Responses(conn.incoming, conn.endOfStream, decode);
    ghost var sent0 := respChan.sent;
    var done := false;
    var i: nat := 0;
    while !done
      invariant conn.Valid() && !conn.closed && conn.releases == old(conn.releases)
      invariant !respChan.closed
      invariant !done ==> i <= |conn.incoming| && conn.pos == i && i <= callerStopsAt && !stop.closed
      invariant !done ==> respChan.sent == sent0 + rs[..i] && forall j :: 0 <= j < i ==> !HasErrors(rs[j])
      invariant done ==> respChan.sent == sent0 + Delivered(rs, callerStopsAt) && stop.closed
      decreases |conn.incoming| - conn.pos, !done
    {
      var read := conn.ReadJSON();
      var resp := ReadConnResponse(read, decode);
      assert resp == rs[i];
      if i == callerStopsAt {
        // the caller's stopWatch()
        CloseChanFunc(stop);
      }
      if stop.closed {
        DeliveredCleanPrefix(rs, i, callerStopsAt);
        done := true;
      } else {
        done := Publish(respChan, stop, resp);
        assert rs[..i + 1] == rs[..i] + [resp];
        if done {
          DeliveredCleanPrefix(rs, i, callerStopsAt);
        }
      }
      i := i + 1;
    }
    // <-stopChan has returned; the deferred calls run in reverse order
    conn.Close();
    respChan.Close();
  }
}
