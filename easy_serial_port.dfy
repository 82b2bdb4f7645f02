/**
  The serial-port facade `EasySerialPort`: its fields, the lifecycle
  (`open`, `close`), the configuration guards, the direct and periodic send
  paths, the two worker threads stepped one iteration at a time, and its
  `Builder`.

  The native device is an input (`DeviceOutcome` for an open, `writeOk` for
  a write, a script of `ReadResult`s for the receive loop). Listener
  callbacks and completed writes are recorded in the ghost `trace`; the
  chunks the receive loop hands the data listener are returned by
  `RunReadThread`.
 */
module EasySerial {
  import opened SerialTypes
  import opened ReadLoop

  /** The receive worker. Its loop reads the facade's fields; its own state is the interrupt flag. */
  class ReadThread {
    var interrupted: bool

    constructor ()
      ensures !interrupted
    {
      interrupted := false;
    }

    method Interrupt()
      modifies this
      ensures interrupted
    {
      interrupted := true;
    }
  }

  /** The transmit worker and its suspend flag. */
  class SendThread {
    /** True: the loop waits on the monitor. False: it writes the loop data every cycle. */
    var runFlag: bool
    /** `run` has returned or thrown; the thread does nothing more. */
    var finished: bool

    constructor ()
      ensures runFlag && !finished
    {
      runFlag := true;
      finished := false;
    }

    method SetSuspendFlag()
      modifies this
      ensures runFlag && finished == old(finished)
    {
      runFlag := true;
    }

    /** Clears the flag; the `notify` that wakes the waiting loop is scheduling and is not modelled. */
    method SetResume()
      modifies this
      ensures !runFlag && finished == old(finished)
    {
      runFlag := false;
    }

    /** Ends the thread. Only the corrected `Close` does this. */
    method Cancel()
      modifies this
      ensures finished && runFlag == old(runFlag)
    {
      finished := true;
    }
  }

  /** The facade's fields other than the ghost trace, as one value. */
  datatype SessionFields = SessionFields(
    openState: bool,
    port: Option<string>,
    baudRate: Int32,
    serialPort: Option<DeviceHandle>,
    outputStream: Option<DeviceHandle>,
    inputStream: Option<DeviceHandle>,
    readThread: ReadThread?,
    sendThread: SendThread?,
    loopData: seq<Byte>,
    delay: Int32,
    receivedListener: bool,
    statesListener: bool)

  /** How a call of `send` ends. */
  datatype SendOutcome = Written | WriteFailed | Skipped | ThrewNullPointer

  function WriteOutcome(writeOk: bool): SendOutcome
  {
    if writeOk then Written else WriteFailed
  }

  function WriteEvents(bytes: seq<Byte>, writeOk: bool): seq<Event>
  {
    if writeOk then [Wrote(bytes)] else []
  }

  const DefaultLoopData: seq<Byte> := [0x30]
  const DefaultDelay: Int32 := 500
  const DefaultBaudRate: Int32 := 9600
  const EmptyPortMessage: string := "port is null or empty!"

  class EasySerialPort {
    var serialPort: Option<DeviceHandle>
    /** The output and input streams, identified by the handle they came from. `close` never clears them. */
    var outputStream: Option<DeviceHandle>
    var inputStream: Option<DeviceHandle>
    var readThread: ReadThread?
    var sendThread: SendThread?
    var openState: bool
    var loopData: seq<Byte>
    var delay: Int32
    var port: Option<string>
    var baudRate: Int32
    var hasReceivedListener: bool
    var hasStatesListener: bool
    /** States-listener callbacks and completed writes, in order. */
    ghost var trace: seq<Event>

    /**
      What every operation keeps: an open session has a port, a handle and
      a transmit thread; the threads exist only after both streams were
      obtained. (A handle may be present while closed: see `Opened`.)
     */
    ghost predicate Valid()
      reads this
    {
      && (openState ==> port.Some? && serialPort.Some? && sendThread != null)
      && (sendThread != null ==> readThread != null && outputStream.Some?)
      && (readThread != null ==> inputStream.Some?)
    }

    function Fields(): SessionFields
      reads this
    {
      SessionFields(openState, port, baudRate, serialPort, outputStream, inputStream,
                    readThread, sendThread, loopData, delay, hasReceivedListener, hasStatesListener)
    }

    /** The private constructor `build` calls. It leaves the states listener unset. */
    constructor (port: string, baudRate: Int32, receivedListener: bool)
      ensures Valid()
      ensures Fields() == SessionFields(false, Some(port), baudRate, None, None, None, null, null,
                                        DefaultLoopData, DefaultDelay, receivedListener, false)
      ensures trace == []
    {
      this.port := Some(port);
      this.baudRate := baudRate;
      this.hasReceivedListener := receivedListener;
      hasStatesListener := false;
      serialPort, outputStream, inputStream := None, None, None;
      readThread, sendThread := null, null;
      openState := false;
      loopData := DefaultLoopData;
      delay := DefaultDelay;
      trace := [];
    }

    function IsOpen(): (r: bool)
      reads this
      ensures r == openState
    {
      openState
    }

    function IsNotOpen(): (r: bool)
      reads this
      ensures r == !IsOpen()
    {
      !openState
    }

    function GetBaudRate(): (r: Int32)
      reads this
      ensures r == baudRate
    {
      baudRate
    }

    function GetPort(): (r: Option<string>)
      reads this
      ensures r == port
    {
      port
    }

    function GetLoopData(): (r: seq<Byte>)
      reads this
      ensures r == loopData
    {
      loopData
    }

    function GetDelay(): (r: Int32)
      reads this
      ensures r == delay
    {
      delay
    }

    method SetSerialPortReceivedListener(present: bool)
      requires Valid()
      modifies this
      ensures Valid()
      ensures Fields() == old(Fields()).(receivedListener := present) && trace == old(trace)
    {
      hasReceivedListener := present;
    }

    method SetSatesListener(present: bool)
      requires Valid()
      modifies this
      ensures Valid()
      ensures Fields() == old(Fields()).(statesListener := present) && trace == old(trace)
    {
      hasStatesListener := present;
    }

    /**
      What `baseOpen` leaves behind. On success: open, a handle for the
      configured port and rate, both streams from it, a new read thread and
      a new send thread that is suspended. If the handle could not be
      constructed: nothing changed. If `getOutputStream` threw: only the
      handle was replaced, and `openState` is what it was.
     */
    twostate predicate Opened(device: DeviceOutcome)
      reads this, readThread, sendThread
    {
      match Acquire(old(port), old(baudRate), device)
      case Acquired(h) =>
        && readThread != null && sendThread != null
        && fresh(readThread) && fresh(sendThread)
        && !readThread.interrupted
        && sendThread.runFlag && !sendThread.finished
        && Fields() == old(Fields()).(openState := true, serialPort := Some(h), outputStream := Some(h),
                                      inputStream := Some(h), readThread := readThread, sendThread := sendThread)
      case Refused(_) => Fields() == old(Fields())
      case Abandoned(h, _) => Fields() == old(Fields()).(serialPort := Some(h))
    }

    /** `baseOpen`: the exception it throws is returned as the kind of a failed `Acquisition`. */
    method BaseOpen(device: DeviceOutcome) returns (a: Acquisition)
      requires Valid()
      modifies this
      ensures Valid()
      ensures a == Acquire(old(port), old(baudRate), device)
      ensures Opened(device) && trace == old(trace)
    {
      a := Acquire(port, baudRate, device);
      match a
      case Refused(_) =>
      case Abandoned(h, _) =>
        serialPort := Some(h);
      case Acquired(h) =>
        StartSession(h);
    }

    /**
      The rest of a `baseOpen` whose handle was constructed: keep the
      handle, take both streams from it, start the read thread, start the
      send thread suspended, and mark the session open.
     */
    method StartSession(h: DeviceHandle)
      requires port.Some?
      modifies this
      ensures readThread != null && sendThread != null
      ensures fresh(readThread) && fresh(sendThread)
      ensures !readThread.interrupted && sendThread.runFlag && !sendThread.finished
      ensures Fields() == old(Fields()).(openState := true, serialPort := Some(h), outputStream := Some(h),
                                         inputStream := Some(h), readThread := readThread, sendThread := sendThread)
      ensures trace == old(trace)
    {
      var reader := new ReadThread();
      var sender := new SendThread();
      sender.SetSuspendFlag();
      serialPort, outputStream, inputStream := Some(h), Some(h), Some(h);
      readThread, sendThread := reader, sender;
      openState := true;
    }

    /**
      `open`: run `baseOpen`, then report exactly once to the states listener,
      with an empty reason on success and the reason for the failure kind
      otherwise. Nothing is thrown out of it. There is no guard against
      opening an open session: a second handle and two more threads are made.
     */
    method Open(device: DeviceOutcome)
      requires Valid() && hasStatesListener
      modifies this
      ensures Valid() && Opened(device)
      ensures openState <==> old(openState) || Acquire(old(port), old(baudRate), device).Succeeded()
      ensures trace == old(trace) + [OpenReport(Acquire(old(port), old(baudRate), device))]
    {
      var a := BaseOpen(device);
      trace := trace + [OpenReport(a)];
    }

    /**
      `close` as written: interrupt the read thread, release and drop the
      handle, mark the session closed and report `onClose` once, whatever
      the state before. The send thread is left running.
     */
    method CloseAsWritten()
      requires Valid() && hasStatesListener
      modifies this, readThread
      ensures Valid()
      ensures Fields() == old(Fields()).(openState := false, serialPort := None)
      ensures readThread != null ==> readThread.interrupted
      ensures trace == old(trace) + [OnClose]
    {
      if readThread != null {
        readThread.Interrupt();
      }
      if serialPort.Some? {
        serialPort := None;
      }
      openState := false;
      trace := trace + [OnClose];
    }

    /** `close` corrected: as written, and the send thread is ended as well. */
    method Close()
      requires Valid() && hasStatesListener
      modifies this, readThread, sendThread
      ensures Valid()
      ensures Fields() == old(Fields()).(openState := false, serialPort := None)
      ensures readThread != null ==> readThread.interrupted
      ensures sendThread != null ==> sendThread.finished && sendThread.runFlag == old(sendThread.runFlag)
      ensures trace == old(trace) + [OnClose]
    {
      if readThread != null {
        readThread.Interrupt();
      }
      if sendThread != null {
        sendThread.Cancel();
      }
      if serialPort.Some? {
        serialPort := None;
      }
      openState := false;
      trace := trace + [OnClose];
    }

    /** `outputStream.write(bytes)`, with an IOException caught and dropped. */
    method Write(bytes: seq<Byte>, writeOk: bool) returns (outcome: SendOutcome)
      requires outputStream.Some?
      modifies this`trace
      ensures outcome == WriteOutcome(writeOk)
      ensures trace == old(trace) + WriteEvents(bytes, writeOk)
    {
      if writeOk {
        trace := trace + [Wrote(bytes)];
        outcome := Written;
      } else {
        outcome := WriteFailed;
      }
    }

    /**
      `send` as written. Open: write directly. Closed: run the whole of
      `open` first, then write to whatever output stream there is; if no
      open ever obtained one, the write dereferences null and the
      NullPointerException escapes, because only IOException is caught.
     */
    method SendAsWritten(bytes: seq<Byte>, device: DeviceOutcome, writeOk: bool) returns (outcome: SendOutcome)
      requires Valid() && (openState || hasStatesListener)
      modifies this
      ensures Valid() && SentAsWritten(bytes, device, writeOk, outcome)
    {
      if openState {
        outcome := Write(bytes, writeOk);
      } else {
        Open(device);
        if outputStream.None? {
          outcome := ThrewNullPointer;
          return;
        }
        outcome := Write(bytes, writeOk);
      }
    }

    /**
      What `send` as written does. Open: write, change nothing else.
      Closed: the effects and the single report of `open`, then a write to
      whatever output stream there now is (one left by an earlier session
      included), or a NullPointerException if there is none.
     */
    twostate predicate SentAsWritten(bytes: seq<Byte>, device: DeviceOutcome, writeOk: bool, outcome: SendOutcome)
      reads this, readThread, sendThread
    {
      if old(openState) then
        && Fields() == old(Fields())
        && outcome == WriteOutcome(writeOk)
        && trace == old(trace) + WriteEvents(bytes, writeOk)
      else
        && Opened(device)
        && outcome == (if outputStream.None? then ThrewNullPointer else WriteOutcome(writeOk))
        && trace == old(trace) + [OpenReport(Acquire(old(port), old(baudRate), device))]
                               + (if outputStream.None? then [] else WriteEvents(bytes, writeOk))
    }

    /**
      What the corrected `send` does. Open: write, change nothing else.
      Closed: the effects and the single report of `open`, then the write
      only if that open succeeded.
     */
    twostate predicate Sent(bytes: seq<Byte>, device: DeviceOutcome, writeOk: bool, outcome: SendOutcome)
      reads this, readThread, sendThread
    {
      if old(openState) then
        && Fields() == old(Fields())
        && outcome == WriteOutcome(writeOk)
        && trace == old(trace) + WriteEvents(bytes, writeOk)
      else
        && Opened(device)
        && outcome == (if openState then WriteOutcome(writeOk) else Skipped)
        && trace == old(trace) + [OpenReport(Acquire(old(port), old(baudRate), device))]
                               + (if openState then WriteEvents(bytes, writeOk) else [])
    }

    /** `send` corrected: a failed automatic open ends the call instead of writing. */
    method Send(bytes: seq<Byte>, device: DeviceOutcome, writeOk: bool) returns (outcome: SendOutcome)
      requires Valid() && (openState || hasStatesListener)
      modifies this
      ensures Valid() && Sent(bytes, device, writeOk, outcome)
      ensures outcome != ThrewNullPointer
      ensures outcome == Written ==> openState
    {
      if !openState {
        Open(device);
        if !openState {
          return Skipped;
        }
      }
      outcome := Write(bytes, writeOk);
    }

    /** `startSend`: resume the send thread, if `open` ever made one. */
    method StartSend()
      modifies sendThread
      ensures sendThread != null ==> !sendThread.runFlag && sendThread.finished == old(sendThread.finished)
      ensures Fields() == old(Fields()) && trace == old(trace)
    {
      if sendThread != null {
        sendThread.SetResume();
      }
    }

    /** `stopSend`: suspend the send thread, if `open` ever made one. */
    method StopSend()
      modifies sendThread
      ensures sendThread != null ==> sendThread.runFlag && sendThread.finished == old(sendThread.finished)
      ensures Fields() == old(Fields()) && trace == old(trace)
    {
      if sendThread != null {
        sendThread.SetSuspendFlag();
      }
    }

    /** `setBaudRate(int)`: refused while open; otherwise the rate is replaced and nothing else. */
    method SetBaudRate(iBaud: Int32) returns (ok: bool)
      requires Valid()
      modifies this
      ensures Valid()
      ensures ok == !old(openState)
      ensures Fields() == if ok then old(Fields()).(baudRate := iBaud) else old(Fields())
      ensures trace == old(trace)
    {
      if openState {
        return false;
      }
      baudRate := iBaud;
      return true;
    }

    /** `setPort`: refused while open; otherwise the port (possibly null) is replaced and nothing else. */
    method SetPort(sPort: Option<string>) returns (ok: bool)
      requires Valid()
      modifies this
      ensures Valid()
      ensures ok == !old(openState)
      ensures Fields() == if ok then old(Fields()).(port := sPort) else old(Fields())
      ensures trace == old(trace)
    {
      if openState {
        return false;
      }
      port := sPort;
      return true;
    }

    /** `setLoopData(byte[])`: always accepted, used by the send thread's next cycle. */
    method SetLoopData(data: seq<Byte>)
      requires Valid()
      modifies this
      ensures Valid()
      ensures Fields() == old(Fields()).(loopData := data) && trace == old(trace)
    {
      loopData := data;
    }

    /** `setDelay`: always accepted, used by the send thread's next sleep. */
    method SetDelay(d: Int32)
      requires Valid()
      modifies this
      ensures Valid()
      ensures Fields() == old(Fields()).(delay := d) && trace == old(trace)
    {
      delay := d;
    }

    /**
      `ReadThread.run` of thread `t` over a script of read results. It
      returns at once if `t` is interrupted or there is no input stream;
      otherwise it consumes reads as `Receive` says. It changes no field:
      in particular a read failure leaves `openState` as it was.
     */
    method RunReadThread(t: ReadThread, script: seq<ReadResult>) returns (delivered: seq<ComPortData>, consumed: nat, ended: bool)
      ensures t.interrupted || inputStream.None? ==> delivered == [] && consumed == 0 && ended
      ensures !t.interrupted && inputStream.Some? ==>
                LoopRun(delivered, consumed, ended) == Receive(port, hasReceivedListener, script)
    {
      delivered, consumed, ended := [], 0, false;
      while !ended
        invariant consumed <= |script|
        invariant t.interrupted || inputStream.None? ==> delivered == [] && consumed == 0
        invariant !t.interrupted && inputStream.Some? && ended ==>
                    Receive(port, hasReceivedListener, script) == LoopRun(delivered, consumed, true)
        invariant !t.interrupted && inputStream.Some? && !ended ==>
                    Receive(port, hasReceivedListener, script)
                    == Resumed(delivered, consumed, Receive(port, hasReceivedListener, script[consumed..]))
        decreases |script| - consumed, !ended
      {
        if t.interrupted {
          ended := true;
        } else if inputStream.None? {
          ended := true;
        } else if consumed == |script| {
          break;
        } else {
          var it := ReadIteration(port, hasReceivedListener, script[consumed]);
          if it.Stop? {
            ReceiveStopsAt(port, hasReceivedListener, script, Receive(port, hasReceivedListener, script), delivered, consumed);
            consumed, ended := consumed + 1, true;
          } else {
            ReceiveGoesOnAt(port, hasReceivedListener, script, Receive(port, hasReceivedListener, script), delivered, consumed);
            delivered := delivered + (if it.Deliver? then [it.data] else []);
            consumed := consumed + 1;
          }
        }
      }
      if !ended {
        assert script[consumed..] == [];
      }
    }

    /**
      One cycle of `SendThread.run` for thread `t`: nothing while it is
      suspended or finished; otherwise `send` the current loop data, then
      sleep, where a negative delay throws IllegalArgumentException out of
      `run` and ends the thread. The write goes through `send` as written,
      so on a closed session it opens the port again and then writes to the
      output stream, even one a previous session left behind. A send thread
      exists only once an open has set the output stream, which nothing
      clears, so the write never meets a null stream.
     */
    method SendThreadIteration(t: SendThread, device: DeviceOutcome, writeOk: bool) returns (sent: Option<SendOutcome>)
      requires Valid() && outputStream.Some?
      requires t.finished || t.runFlag || openState || hasStatesListener
      modifies this, t
      ensures Valid() && outputStream.Some?
      ensures old(t.finished || t.runFlag) ==>
                && sent.None? && Fields() == old(Fields()) && trace == old(trace)
                && t.runFlag == old(t.runFlag) && t.finished == old(t.finished)
      ensures old(!t.finished && !t.runFlag) ==>
                && sent.Some? && SentAsWritten(old(loopData), device, writeOk, sent.value)
                && sent.value == WriteOutcome(writeOk)
                && !t.runFlag && t.finished == (old(delay) < 0)
    {
      if t.finished || t.runFlag {
        return None;
      }
      var outcome := SendAsWritten(loopData, device, writeOk);
      sent := Some(outcome);
      if delay < 0 {
        t.finished := true;
      }
    }
  }

  /** `EasySerialPort.Builder`: collects the port, the rate (9600 unless set) and the listeners. */
  class Builder {
    var port: Option<string>
    var baudRate: Int32
    var hasReceivedListener: bool
    var hasStatesListener: bool

    constructor ()
      ensures port.None? && baudRate == DefaultBaudRate
      ensures !hasReceivedListener && !hasStatesListener
    {
      port := None;
      baudRate := DefaultBaudRate;
      hasReceivedListener := false;
      hasStatesListener := false;
    }

    method SetPort(p: Option<string>) returns (self: Builder)
      modifies this
      ensures self == this && port == p
      ensures baudRate == old(baudRate) && hasReceivedListener == old(hasReceivedListener)
      ensures hasStatesListener == old(hasStatesListener)
    {
      port := p;
      self := this;
    }

    method SetBaudRate(rate: Int32) returns (self: Builder)
      modifies this
      ensures self == this && baudRate == rate
      ensures port == old(port) && hasReceivedListener == old(hasReceivedListener)
      ensures hasStatesListener == old(hasStatesListener)
    {
      baudRate := rate;
      self := this;
    }

    method SetListener(present: bool) returns (self: Builder)
      modifies this
      ensures self == this && hasReceivedListener == present
      ensures port == old(port) && baudRate == old(baudRate) && hasStatesListener == old(hasStatesListener)
    {
      hasReceivedListener := present;
      self := this;
    }

    method SetSatesListener(present: bool) returns (self: Builder)
      modifies this
      ensures self == this && hasStatesListener == present
      ensures port == old(port) && baudRate == old(baudRate) && hasReceivedListener == old(hasReceivedListener)
    {
      hasStatesListener := present;
      self := this;
    }

    /**
      `build` as written: a null or empty port is refused with an exception;
      otherwise a closed instance with the builder's port, rate and data
      listener, but never its states listener.
     */
    method BuildAsWritten() returns (r: Result<EasySerialPort, string>)
      ensures r.Failure? <==> port.None? || port == Some("")
      ensures r.Failure? ==> r.error == EmptyPortMessage
      ensures r.Success? ==>
                && fresh(r.value) && r.value.Valid() && r.value.trace == []
                && r.value.Fields() == SessionFields(false, port, baudRate, None, None, None, null, null,
                                                     DefaultLoopData, DefaultDelay, hasReceivedListener, false)
    {
      if port.None? || port.value == "" {
        return Failure(EmptyPortMessage);
      }
      var serial := new EasySerialPort(port.value, baudRate, hasReceivedListener);
      return Success(serial);
    }

    /**
      `build` corrected: as written, but the states listener set on the
      builder is handed to the instance. A fresh instance is closed, sends
      0x30 every 500 ms once started, and has no handle or threads.
     */
    method Build() returns (r: Result<EasySerialPort, string>)
      ensures r.Failure? <==> port.None? || port == Some("")
      ensures r.Failure? ==> r.error == EmptyPortMessage
      ensures r.Success? ==>
                && fresh(r.value) && r.value.Valid() && r.value.trace == []
                && !r.value.IsOpen() && r.value.GetLoopData() == [0x30] && r.value.GetDelay() == 500
                && r.value.GetPort() == port && r.value.GetBaudRate() == baudRate
                && r.value.Fields() == SessionFields(false, port, baudRate, None, None, None, null, null,
                                                     DefaultLoopData, DefaultDelay, hasReceivedListener, hasStatesListener)
    {
      if port.None? || port.value == "" {
        return Failure(EmptyPortMessage);
      }
      var serial := new EasySerialPort(port.value, baudRate, hasReceivedListener);
      serial.SetSatesListener(hasStatesListener);
      return Success(serial);
    }
  }

  /**
    Finding: `send` on an instance that never opened, whose automatic open
    is refused, dereferences the null output stream and throws.
   */
  method SendAfterRefusedOpenThrows() returns (outcome: SendOutcome)
    ensures outcome == ThrewNullPointer
  {
    var builder := new Builder();
    builder := builder.SetPort(Some("/dev/ttyS1"));
    var built := builder.Build();
    var serial := built.value;
    serial.SetSatesListener(true);
    outcome := serial.SendAsWritten([0x31], Refuses(Security), true);
  }

  /**
    Finding: after `open`, `startSend` and `close` as written, the next cycle
    of the send thread opens the port again, and `stopSend` then suspends
    the new send thread while the old one keeps sending.
   */
  method SendThreadOutlivesClose() returns (reopened: bool, stillSending: bool)
    ensures reopened && stillSending
  {
    var builder := new Builder();
    builder := builder.SetPort(Some("/dev/ttyS1"));
    var built := builder.Build();
    var serial := built.value;
    serial.SetSatesListener(true);
    serial.Open(Accepts);
    serial.StartSend();
    var sender: SendThread := serial.sendThread;
    serial.CloseAsWritten();
    var sent := serial.SendThreadIteration(sender, Accepts, true);
    serial.StopSend();
    reopened := serial.IsOpen();
    stillSending := !sender.runFlag && !sender.finished;
  }

  /**
    After `close` as written, the send thread's next cycle writes the loop
    data even when its reopen is refused: the output stream of the closed
    session is still set, though its handle was released.
   */
  method StaleStreamWriteAfterRefusedReopen() returns (reopened: bool, sent: Option<SendOutcome>)
    ensures !reopened && sent == Some(Written)
  {
    var builder := new Builder();
    builder := builder.SetPort(Some("/dev/ttyS1"));
    var built := builder.Build();
    var serial := built.value;
    serial.SetSatesListener(true);
    serial.Open(Accepts);
    serial.StartSend();
    var sender: SendThread := serial.sendThread;
    serial.CloseAsWritten();
    sent := serial.SendThreadIteration(sender, Refuses(IO), true);
    reopened := serial.IsOpen();
  }

  /**
    The corrected `Close` ends the send thread: its next cycle neither
    reopens the port nor writes, whatever the device would do.
   */
  method CloseThenSendThreadIteration(serial: EasySerialPort, device: DeviceOutcome, writeOk: bool)
    requires serial.Valid() && serial.hasStatesListener && serial.sendThread != null
    modifies serial, serial.readThread, serial.sendThread
    ensures serial.Valid() && !serial.IsOpen()
    ensures serial.trace == old(serial.trace) + [OnClose]
  {
    var sender: SendThread := serial.sendThread;
    serial.Close();
    var sent := serial.SendThreadIteration(sender, device, writeOk);
  }

  /** `close` on a closed session changes nothing but reports `onClose` again. */
  method CloseTwice(serial: EasySerialPort)
    requires serial.Valid() && serial.hasStatesListener
    modifies serial, serial.readThread
    ensures serial.Valid() && !serial.IsOpen() && serial.serialPort.None?
    ensures serial.Fields() == old(serial.Fields()).(openState := false, serialPort := None)
    ensures serial.trace == old(serial.trace) + [OnClose, OnClose]
  {
    serial.CloseAsWritten();
    ghost var once := serial.Fields();
    serial.CloseAsWritten();
    assert serial.Fields() == once;
  }

  /** Finding: a states listener given to the builder does not reach the built instance. */
  method BuildDropsStatesListener() returns (kept: bool)
    ensures !kept
  {
    var builder := new Builder();
    builder := builder.SetPort(Some("/dev/ttyS1"));
    builder := builder.SetSatesListener(true);
    var built := builder.BuildAsWritten();
    kept := built.value.hasStatesListener;
  }
}
