/**
  The receive side of the facade, stated over an abstract script of read
  results: what one iteration of `ReadThread.run` decides, and what the whole
  loop delivers to the data listener before it returns or the script runs out.
 */
module ReadLoop {
  import opened SerialTypes

  /** What one iteration does with one read result. */
  datatype Iteration = Deliver(data: ComPortData) | Skip | Stop

  /** A fresh 512-byte buffer after a read stored `bytes` at its front. */
  function Filled(bytes: seq<Byte>): (buffer: seq<Byte>)
    requires |bytes| <= BufferSize
    ensures |buffer| == BufferSize && buffer[..|bytes|] == bytes
    ensures forall i | |bytes| <= i < BufferSize :: buffer[i] == 0
  {
    bytes + seq(BufferSize - |bytes|, _ => 0)
  }

  /**
    One iteration of the read loop, once the interrupt flag and the null
    stream check have passed. A positive size is handed to the data
    listener; zero or -1 is ignored; an exception ends the loop, and so does
    a positive size with no data listener, whose NullPointerException is
    caught by the same `catch (Throwable e)`.
   */
  function ReadIteration(port: Option<string>, listening: bool, r: ReadResult): (it: Iteration)
    ensures it.Deliver? <==> r.Returned? && r.size > 0 && listening
    ensures it.Stop? <==> r.Threw? || (r.Returned? && r.size > 0 && !listening)
    ensures it.Deliver? ==>
              && it.data.port == port
              && 0 < it.data.size == r.size <= BufferSize
              && |it.data.buffer| == BufferSize
              && it.data.buffer[..r.size] == r.bytes
  {
    match r
    case Threw => Stop
    case Returned(size, bytes) =>
      if size <= 0 then Skip
      else if !listening then Stop
      else Deliver(Chunk(port, r))
  }

  /** The data passed to the listener for a positive read: the port and the whole buffer. */
  function Chunk(port: Option<string>, r: ReadResult): (data: ComPortData)
    requires r.Returned? && r.size > 0
    ensures data.port == port && data.size == r.size
    ensures |data.buffer| == BufferSize && data.buffer[..r.size] == r.bytes
  {
    ComPortData(port, Filled(r.bytes), r.size)
  }

  /**
    A run of the loop over a script of reads: the chunks delivered in order,
    how many reads were consumed, and whether `run` returned (otherwise the
    script ran out and the thread is blocked in its next read).
   */
  datatype LoopRun = LoopRun(delivered: seq<ComPortData>, consumed: nat, ended: bool)

  /** The loop of `ReadThread.run` over a script of reads. */
  function Receive(port: Option<string>, listening: bool, script: seq<ReadResult>): (run: LoopRun)
    ensures run.consumed <= |script|
    ensures |run.delivered| <= run.consumed
    ensures !run.ended ==> run.consumed == |script|
    decreases |script|
  {
    if script == [] then LoopRun([], 0, false)
    else
      var it := ReadIteration(port, listening, script[0]);
      if it.Stop? then LoopRun([], 1, true)
      else Continue(it, Receive(port, listening, script[1..]))
  }

  /** The run that follows an iteration that did not stop the loop. */
  function Continue(it: Iteration, rest: LoopRun): (run: LoopRun)
    requires !it.Stop?
  {
    LoopRun((if it.Deliver? then [it.data] else []) + rest.delivered, rest.consumed + 1, rest.ended)
  }

  /** The run after `consumed` reads delivered `delivered`, followed by the run `rest`. */
  function Resumed(delivered: seq<ComPortData>, consumed: nat, rest: LoopRun): LoopRun
  {
    LoopRun(delivered + rest.delivered, consumed + rest.consumed, rest.ended)
  }

  /** Every chunk the loop hands the listener carries the port, a full buffer and the positive count read. */
  lemma {:induction false} ReceiveDeliversWellFormedChunks(port: Option<string>, listening: bool, script: seq<ReadResult>)
    ensures var run := Receive(port, listening, script);
            forall k | 0 <= k < |run.delivered| ::
              && run.delivered[k].port == port
              && 0 < run.delivered[k].size <= BufferSize
              && |run.delivered[k].buffer| == BufferSize
    decreases |script|
  {
    if script != [] {
      var it := ReadIteration(port, listening, script[0]);
      if !it.Stop? {
        ReceiveDeliversWellFormedChunks(port, listening, script[1..]);
        assert Receive(port, listening, script) == Continue(it, Receive(port, listening, script[1..]));
      }
    }
  }

  /**
    With a data listener, the listener is called exactly once per positive
    read consumed, and for no other read.
   */
  lemma ReceiveCallsListenerOncePerPositiveRead(port: Option<string>, script: seq<ReadResult>)
    ensures var run := Receive(port, true, script);
            |run.delivered| == PositiveReads(script[..run.consumed])
  {
    ReceiveDeliversPositiveChunks(port, script);
  }

  /** A read that stops the loop ends a run that has consumed the reads before it. */
  lemma ReceiveStopsAt(port: Option<string>, listening: bool, script: seq<ReadResult>,
                       whole: LoopRun, delivered: seq<ComPortData>, consumed: nat)
    requires consumed < |script| && ReadIteration(port, listening, script[consumed]).Stop?
    requires whole == Resumed(delivered, consumed, Receive(port, listening, script[consumed..]))
    ensures whole == LoopRun(delivered, consumed + 1, true)
  {
  }

  /**
    A read that lets the loop go on: the run goes on from the next read,
    with the chunk of this read (if any) appended to what was delivered.
   */
  lemma ReceiveGoesOnAt(port: Option<string>, listening: bool, script: seq<ReadResult>,
                        whole: LoopRun, delivered: seq<ComPortData>, consumed: nat)
    requires consumed < |script| && !ReadIteration(port, listening, script[consumed]).Stop?
    requires whole == Resumed(delivered, consumed, Receive(port, listening, script[consumed..]))
    ensures var it := ReadIteration(port, listening, script[consumed]);
            whole == Resumed(delivered + (if it.Deliver? then [it.data] else []), consumed + 1,
                             Receive(port, listening, script[consumed + 1..]))
  {
  }

  /** Number of reads in `script` that returned a positive size. */
  function PositiveReads(script: seq<ReadResult>): (n: nat)
    ensures n <= |script|
  {
    if script == [] then 0
    else (if script[0].Returned? && script[0].size > 0 then 1 else 0) + PositiveReads(script[1..])
  }

  /**
    The loop returns exactly at the first read that stops it: every read
    consumed before that one let the loop go on.
   */
  lemma {:induction false} ReceiveEndsAtFirstStop(port: Option<string>, listening: bool, script: seq<ReadResult>)
    ensures var run := Receive(port, listening, script);
            && (run.ended ==> run.consumed > 0 && ReadIteration(port, listening, script[run.consumed - 1]).Stop?)
            && forall i | 0 <= i < run.consumed - (if run.ended then 1 else 0) ::
                 !ReadIteration(port, listening, script[i]).Stop?
    decreases |script|
  {
    if script != [] {
      var it := ReadIteration(port, listening, script[0]);
      if !it.Stop? {
        var tail := script[1..];
        var rest := Receive(port, listening, tail);
        ReceiveEndsAtFirstStop(port, listening, tail);
        assert Receive(port, listening, script) == Continue(it, rest);
        forall i | 1 <= i < rest.consumed + 1
          ensures script[i] == tail[i - 1]
        {
        }
      }
    }
  }

  /**
    Without a data listener the listener is never reached: the first
    positive read throws a NullPointerException that ends the loop.
   */
  lemma {:induction false} ReceiveWithoutListenerDeliversNothing(port: Option<string>, script: seq<ReadResult>)
    ensures Receive(port, false, script).delivered == []
    decreases |script|
  {
    if script != [] && !ReadIteration(port, false, script[0]).Stop? {
      ReceiveWithoutListenerDeliversNothing(port, script[1..]);
    }
  }

  /**
    The chunks the data listener should see for a script of reads that all
    let the loop go on: one per positive read, in the order read.
   */
  function PositiveChunks(port: Option<string>, script: seq<ReadResult>): (chunks: seq<ComPortData>)
    ensures |chunks| == PositiveReads(script)
  {
    if script == [] then []
    else
      (if script[0].Returned? && script[0].size > 0 then [Chunk(port, script[0])] else [])
      + PositiveChunks(port, script[1..])
  }

  /**
    With a data listener, the loop hands the listener exactly the chunks of
    the positive reads it consumed, in order, and nothing else.
   */
  lemma {:induction false} ReceiveDeliversPositiveChunks(port: Option<string>, script: seq<ReadResult>)
    ensures var run := Receive(port, true, script);
            run.delivered == PositiveChunks(port, script[..run.consumed])
    decreases |script|
  {
    if script != [] {
      var run := Receive(port, true, script);
      var it := ReadIteration(port, true, script[0]);
      if it.Stop? {
        assert script[..run.consumed] == [script[0]];
        assert PositiveChunks(port, [script[0]]) == [] + PositiveChunks(port, []);
      } else {
        var rest := Receive(port, true, script[1..]);
        ReceiveDeliversPositiveChunks(port, script[1..]);
        assert run == Continue(it, rest);
        var done := script[..run.consumed];
        assert done[0] == script[0] && done[1..] == script[1..][..rest.consumed];
      }
    }
  }
}
