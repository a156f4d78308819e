/**
  lookReadMessage of client.go with its goroutines interleaved. The sequential
  model in module Pump runs each loop iteration atomically; here every channel
  operation is one atomic step of one goroutine, and a schedule (a sequence of
  moves) decides who steps next. Three actors take part: the reading goroutine,
  lookReadMessage's own goroutine (which waits for the stop signal, then releases
  the connection and closes the delivery channel), and the consumer, which calls
  stopWatch() at a moment of its choosing. Reads are given already classified.

  As written, two schedules panic: a send on the delivery channel after it was
  closed, and a second close of the stop channel. The corrected code below, in
  which the reading goroutine owns the delivery channel and the stop function is
  an atomic test-and-set, panics on no schedule.
 */
module Interleaving {

  import opened Wrappers
  import opened Protocol

  /** Where the reading goroutine is. */
  datatype ReaderAt =
    | Reading                   // about to call readConnResponse
    | Checking(resp: Response)  // at the select on the stop channel
    | Sending(resp: Response)   // about to execute respChan <- resp
    | CheckingOwnStop           // at closeChanFunc's select, after an error response
    | ClosingOwnStop            // at closeChanFunc's close
    | ClosingQueue              // at its deferred close(respChan) (corrected code only)
    | ReaderDone

  /** Where lookReadMessage's own goroutine is. */
  datatype WaiterAt = Waiting | ReleasingConn | ClosingDelivery | WaiterDone

  /** Where the consumer's call of stopWatch() is. */
  datatype ConsumerAt = Consuming | CheckingStop | ClosingStop | Stopped

  datatype Panic = SendOnClosedChannel | CloseOfClosedChannel

  datatype State = State(
    peer: seq<Response>,   // what the peer's remaining envelopes classify to
    failure: Response,     // what a read gives once they are read or the connection is closed
    connClosed: bool,
    stopClosed: bool,
    queue: seq<Response>,  // everything sent on the delivery channel
    queueClosed: bool,
    reader: ReaderAt,
    waiter: WaiterAt,
    consumer: ConsumerAt,
    panic: Option<Panic>)

  /**
    Who moves next. `pickStop` decides, in the corrected code, which case a select
    takes when both of its cases are ready (Go picks one at random).
   */
  datatype Move = Reader(pickStop: bool) | Waiter | Consumer

  /** The moment lookReadMessage starts: both channels open, nobody has moved. */
  function Init(peer: seq<Response>, failure: Response): State {
    State(peer, failure, false, false, [], false, Reading, Waiting, Consuming, None)
  }

  /** One read: the peer's next response while the connection is open and has some, else the failure. */
  function Read(s: State): (Response, seq<Response>) {
    if !s.connClosed && s.peer != [] then (s.peer[0], s.peer[1..]) else (s.failure, s.peer)
  }

  /**
    One atomic step of the code as written. A panicked state stays as it is; a
    closed channel stays closed; a step sends at most one response, and only the
    reading goroutine sends; a panic comes only from using a closed channel.
   */
  function AsWrittenStep(s: State, m: Move): (r: State)
    ensures s.panic.Some? ==> r == s
    ensures s.panic.None? ==> (s.stopClosed ==> r.stopClosed) && (s.queueClosed ==> r.queueClosed) && (s.connClosed ==> r.connClosed)
    ensures s.queue <= r.queue && |r.queue| <= |s.queue| + 1
    ensures |r.queue| > |s.queue| ==> !s.queueClosed && m.Reader?
    ensures s.panic.None? && r.panic == Some(SendOnClosedChannel) ==> s.queueClosed
    ensures s.panic.None? && r.panic == Some(CloseOfClosedChannel) ==> s.stopClosed || s.queueClosed
  {
    if s.panic.Some? then s
    else match m
      case Reader(_) =>
        (match s.reader
         case Reading => s.(peer := Read(s).1, reader := Checking(Read(s).0))
         case Checking(r) => if s.stopClosed then s.(reader := ReaderDone) else s.(reader := Sending(r))
         case Sending(r) =>
           if s.queueClosed then s.(panic := Some(SendOnClosedChannel))
           else s.(queue := s.queue + [r], reader := if HasErrors(r) then CheckingOwnStop else Reading)
         case CheckingOwnStop => if s.stopClosed then s.(reader := ReaderDone) else s.(reader := ClosingOwnStop)
         case ClosingOwnStop =>
           if s.stopClosed then s.(panic := Some(CloseOfClosedChannel))
           else s.(stopClosed := true, reader := ReaderDone)
         case ClosingQueue => s
         case ReaderDone => s)
      case Waiter =>
        (match s.waiter
         case Waiting => if s.stopClosed then s.(waiter := ReleasingConn) else s
         case ReleasingConn => s.(connClosed := true, waiter := ClosingDelivery)
         case ClosingDelivery =>
           if s.queueClosed then s.(panic := Some(CloseOfClosedChannel))
           else s.(queueClosed := true, waiter := WaiterDone)
         case WaiterDone => s)
      case Consumer =>
        (match s.consumer
         case Consuming => s.(consumer := CheckingStop)
         case CheckingStop => if s.stopClosed then s.(consumer := Stopped) else s.(consumer := ClosingStop)
         case ClosingStop =>
           if s.stopClosed then s.(panic := Some(CloseOfClosedChannel))
           else s.(stopClosed := true, consumer := Stopped)
         case Stopped => s)
  }

  function RunAsWritten(s: State, moves: seq<Move>): State
    decreases |moves|
  {
    if moves == [] then s else RunAsWritten(AsWrittenStep(s, moves[0]), moves[1..])
  }

  /**
    As written: the reader passes the stop check, the consumer stops the watch,
    lookReadMessage's goroutine closes the delivery channel, and the reader's send
    then panics.
   */
  lemma AsWrittenSendsOnClosedQueue(first: Response, rest: seq<Response>, failure: Response)
    ensures RunAsWritten(Init([first] + rest, failure),
              [Reader(false), Reader(false), Consumer, Consumer, Consumer, Waiter, Waiter, Waiter, Reader(false)]).panic
            == Some(SendOnClosedChannel)
  {
    var s0 := Init([first] + rest, failure);
    var s1 := AsWrittenStep(s0, Reader(false));
    assert s1.reader == Checking(first) && !s1.stopClosed && s1.panic.None?;
    var s2 := AsWrittenStep(s1, Reader(false));
    assert s2.reader == Sending(first) && !s2.queueClosed && s2.consumer == Consuming && s2.panic.None?;
    var s3 := AsWrittenStep(s2, Consumer);
    assert s3.consumer == CheckingStop && !s3.stopClosed;
    var s4 := AsWrittenStep(s3, Consumer);
    assert s4.consumer == ClosingStop && !s4.stopClosed;
    var s5 := AsWrittenStep(s4, Consumer);
    assert s5.stopClosed && s5.waiter == Waiting && s5.reader == Sending(first) && s5.panic.None?;
    var s6 := AsWrittenStep(s5, Waiter);
    assert s6.waiter == ReleasingConn && !s6.queueClosed;
    var s7 := AsWrittenStep(s6, Waiter);
    assert s7.waiter == ClosingDelivery && !s7.queueClosed && s7.reader == Sending(first) && s7.panic.None?;
    var s8 := AsWrittenStep(s7, Waiter);
    assert s8.queueClosed && s8.reader == Sending(first) && s8.panic.None?;
    var s9 := AsWrittenStep(s8, Reader(false));
    assert s9.panic == Some(SendOnClosedChannel);
    RunAsWrittenCons(s8, Reader(false), []);
    RunAsWrittenCons(s7, Waiter, [Reader(false)]);
    RunAsWrittenCons(s6, Waiter, [Waiter, Reader(false)]);
    RunAsWrittenCons(s5, Waiter, [Waiter, Waiter, Reader(false)]);
    RunAsWrittenCons(s4, Consumer, [Waiter, Waiter, Waiter, Reader(false)]);
    RunAsWrittenCons(s3, Consumer, [Consumer, Waiter, Waiter, Waiter, Reader(false)]);
    RunAsWrittenCons(s2, Consumer, [Consumer, Consumer, Waiter, Waiter, Waiter, Reader(false)]);
    RunAsWrittenCons(s1, Reader(false), [Consumer, Consumer, Consumer, Waiter, Waiter, Waiter, Reader(false)]);
    RunAsWrittenCons(s0, Reader(false), [Reader(false), Consumer, Consumer, Consumer, Waiter, Waiter, Waiter, Reader(false)]);
  }

  /** Running a schedule is taking its first step, then running the rest. */
  lemma RunAsWrittenCons(s: State, m: Move, ms: seq<Move>)
    ensures RunAsWritten(s, [m] + ms) == RunAsWritten(AsWrittenStep(s, m), ms)
  {
    assert ([m] + ms)[1..] == ms;
  }

  /**
    As written: the reader publishes an error response and starts its own
    closeChanFunc; the consumer, seeing that response, calls stopWatch(); both
    find the stop channel open, and the second close panics.
   */
  lemma AsWrittenClosesStopTwice(err: Response, rest: seq<Response>, failure: Response)
    requires HasErrors(err)
    ensures RunAsWritten(Init([err] + rest, failure),
              [Reader(false), Reader(false), Reader(false), Reader(false), Consumer, Consumer, Reader(false), Consumer]).panic
            == Some(CloseOfClosedChannel)
  {
    var s0 := Init([err] + rest, failure);
    var s1 := AsWrittenStep(s0, Reader(false));
    assert s1.reader == Checking(err);
    var s2 := AsWrittenStep(s1, Reader(false));
    var s3 := AsWrittenStep(s2, Reader(false));
    var s4 := AsWrittenStep(s3, Reader(false));
    var s5 := AsWrittenStep(s4, Consumer);
    var s6 := AsWrittenStep(s5, Consumer);
    var s7 := AsWrittenStep(s6, Reader(false));
    var s8 := AsWrittenStep(s7, Consumer);
    assert s7.stopClosed && s7.consumer == ClosingStop && s7.panic.None?;
    assert s8.panic == Some(CloseOfClosedChannel);
  }

  /**
    One atomic step of the corrected code: the reading goroutine sends inside the
    select on the stop channel and closes the delivery channel itself when it
    returns; lookReadMessage's goroutine only releases the connection; both stop
    calls are one atomic test-and-set.
   */
  function FixedStep(s: State, m: Move): (r: State)
    ensures s.panic.Some? ==> r == s
    ensures s.panic.None? ==> (s.stopClosed ==> r.stopClosed) && (s.queueClosed ==> r.queueClosed) && (s.connClosed ==> r.connClosed)
    ensures s.queue <= r.queue && |r.queue| <= |s.queue| + 1
    ensures |r.queue| > |s.queue| ==> !s.queueClosed && m.Reader?
    ensures s.panic.None? && r.panic == Some(SendOnClosedChannel) ==> s.queueClosed
    ensures s.panic.None? && r.panic == Some(CloseOfClosedChannel) ==> s.queueClosed
  {
    if s.panic.Some? then s
    else match m
      case Reader(pickStop) =>
        (match s.reader
         case Reading => s.(peer := Read(s).1, reader := Checking(Read(s).0))
         case Checking(r) =>
           if s.stopClosed && pickStop then s.(reader := ClosingQueue)
           else if s.queueClosed then s.(panic := Some(SendOnClosedChannel))
           else s.(queue := s.queue + [r], reader := if HasErrors(r) then ClosingOwnStop else Reading)
         case Sending(_) => s
         case CheckingOwnStop => s
         case ClosingOwnStop => s.(stopClosed := true, reader := ClosingQueue)
         case ClosingQueue =>
           if s.queueClosed then s.(panic := Some(CloseOfClosedChannel))
           else s.(queueClosed := true, reader := ReaderDone)
         case ReaderDone => s)
      case Waiter =>
        (match s.waiter
         case Waiting => if s.stopClosed then s.(waiter := ReleasingConn) else s
         case ReleasingConn => s.(connClosed := true, waiter := WaiterDone)
         case ClosingDelivery => s
         case WaiterDone => s)
      case Consumer =>
        (match s.consumer
         case Consuming => s.(stopClosed := true, consumer := Stopped)
         case CheckingStop => s
         case ClosingStop => s
         case Stopped => s)
  }

  function RunFixed(s: State, moves: seq<Move>): State
    decreases |moves|
  {
    if moves == [] then s else RunFixed(FixedStep(s, moves[0]), moves[1..])
  }

  /** No response but the last one sent carries errors. */
  predicate OnlyLastHasErrors(q: seq<Response>) {
    forall j :: 0 <= j < |q| - 1 ==> !HasErrors(q[j])
  }

  /** What holds in every state the corrected code reaches. */
  predicate FixedInvariant(s: State) {
    && s.panic.None?
    && (s.queueClosed <==> s.reader == ReaderDone)
    && OnlyLastHasErrors(s.queue)
    && ((s.reader.Reading? || s.reader.Checking?) ==> forall j :: 0 <= j < |s.queue| ==> !HasErrors(s.queue[j]))
  }

  lemma FixedStepKeepsInvariant(s: State, m: Move)
    requires FixedInvariant(s)
    ensures FixedInvariant(FixedStep(s, m))
  {
    if m.Reader? && s.reader.Checking? && !(s.stopClosed && m.pickStop) {
      var q := s.queue + [s.reader.resp];
      assert forall j :: 0 <= j < |q| - 1 ==> q[j] == s.queue[j];
    }
  }

  /** The corrected code keeps its invariant along any schedule. */
  lemma {:induction false} FixedRunKeepsInvariant(s: State, moves: seq<Move>)
    requires FixedInvariant(s)
    ensures FixedInvariant(RunFixed(s, moves))
    decreases |moves|
  {
    if moves != [] {
      FixedStepKeepsInvariant(s, moves[0]);
      FixedRunKeepsInvariant(FixedStep(s, moves[0]), moves[1..]);
    }
  }

  /**
    The corrected code never panics, whatever the schedule: the delivery channel is
    closed once, by the goroutine that sends on it, after its last send, and the
    stop signal is raised by a test-and-set that cannot close it twice. Of what is
    published, only the last response may carry errors.
   */
  lemma FixedNeverPanics(peer: seq<Response>, failure: Response, moves: seq<Move>)
    ensures RunFixed(Init(peer, failure), moves).panic.None?
    ensures OnlyLastHasErrors(RunFixed(Init(peer, failure), moves).queue)
  {
    FixedRunKeepsInvariant(Init(peer, failure), moves);
  }
}
