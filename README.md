# EasySerialPort, modelled in Dafny

This project models the serial-port facade `EasySerialPort` of the Android
library EasySerialPort (`top.maybesix.easyserialport`). An application builds
an instance for a device path and a baud rate with `EasySerialPort.Builder`,
then opens it, sends bytes, starts or stops a periodic transmission of "loop
data", receives data through a listener, and closes it. Success and failure
of `open`, and `close`, are reported to a states listener.

The model has three modules:

- `SerialTypes` (`serial_types.dfy`) holds the values. These are Java's
  `int` and `byte`, the device's answer to an open request, how far
  `baseOpen` gets (`Acquire`), the four reason strings `open` reports, the
  listener events, and the result of one blocking read.
- `ReadLoop` (`read_loop.dfy`) holds the receive side as functions over a
  script of read results. `ReadIteration` is one pass of `ReadThread.run`,
  and `Receive` is the whole loop. Lemmas state what the data listener is
  handed and where the loop stops.
- `EasySerial` (`easy_serial_port.dfy`) holds the classes. `EasySerialPort`
  has the source's fields and mutating methods. `ReadThread` keeps its
  interrupt flag, `SendThread` its `runFlag`, and `Builder` its options.
  `Valid()` is the invariant every operation keeps. The ghost `trace`
  records every `onOpen`, `onClose` and completed write in order.
  `Fields()` lets each method state its whole new state ("nothing else
  changes").

The native device is an input: `DeviceOutcome` for an open, `writeOk` for a
write, and a sequence of `ReadResult`s for the receive loop. The two worker
threads are stepped by hand. `RunReadThread` runs the receive loop over a
script, and `SendThreadIteration` performs one cycle of the transmit loop.

The code differs from a plain reading of the library's description in the
following ways. The model follows the code.

- A handle can be present while the session is closed. A failure of
  `getOutputStream` (line 131) after line 130 assigned `serialPort` leaves it
  set (`Opened`, case `Abandoned`).
- `open` does not check whether the session is already open.
- `close` does not stop the transmit thread.
- `send` can throw a NullPointerException (see Findings).
- `close` releases the handle but leaves both stream fields set, so a later
  `send` from the send thread can attempt a write to the released stream
  (`StaleStreamWriteAfterRefusedReopen`).

## Model

| member | source | states |
|---|---|---|
| `SerialTypes.Acquire` | easyserialport/src/main/java/top/maybesix/easyserialport/EasySerialPort.java:129-131 | `baseOpen` completes exactly when the port is set and the device accepts; any handle is for the configured path and rate; a refusal or a `getOutputStream` failure carries the device's own failure kind; a null port fails as "other" before the device is touched |
| `SerialTypes.OpenReason` | easyserialport/src/main/java/top/maybesix/easyserialport/EasySerialPort.java:110-126 | every failure kind has a non-empty reason string |
| `SerialTypes.OpenReasonIdentifiesKind` | easyserialport/src/main/java/top/maybesix/easyserialport/EasySerialPort.java:110-126 | the four reasons are distinct, so the reason determines the failure kind |
| `SerialTypes.OpenReport` | easyserialport/src/main/java/top/maybesix/easyserialport/EasySerialPort.java:105-127 | the one `onOpen` call reports success exactly when `baseOpen` completed; the reason is empty exactly on success, and otherwise is the reason for the failure kind |
| `ReadLoop.Filled` | easyserialport/src/main/java/top/maybesix/easyserialport/EasySerialPort.java:203-204 | a read leaves a 512-byte buffer whose front holds the bytes read and whose rest is zero |
| `ReadLoop.ReadIteration` | easyserialport/src/main/java/top/maybesix/easyserialport/EasySerialPort.java:199-213 | one iteration delivers exactly when the size is positive and a data listener is set; it stops exactly on an exception or on a positive size with no listener; a delivery carries the port, the size (1..512) and the bytes read at the front of a 512-byte buffer |
| `ReadLoop.Chunk` | easyserialport/src/main/java/top/maybesix/easyserialport/EasySerialPort.java:205-206 | the data passed to the listener has the current port, the size read, and the whole buffer with the bytes read at its front |
| `ReadLoop.Receive` | easyserialport/src/main/java/top/maybesix/easyserialport/EasySerialPort.java:198-215 | the loop consumes at most the reads given, delivers at most one chunk per read, and uses up the script unless it returned |
| `ReadLoop.PositiveReads` | easyserialport/src/main/java/top/maybesix/easyserialport/EasySerialPort.java:205 | the number of reads with a positive size, which is the number of data-listener calls the loop makes (see `ReceiveCallsListenerOncePerPositiveRead`) |
| `ReadLoop.PositiveChunks` | easyserialport/src/main/java/top/maybesix/easyserialport/EasySerialPort.java:203-207 | one chunk per positive read, in order |
| `ReadLoop.ReceiveEndsAtFirstStop` | easyserialport/src/main/java/top/maybesix/easyserialport/EasySerialPort.java:198-213 | when the loop returns, the last read consumed is one that stops it, and no earlier read would have stopped it |
| `ReadLoop.ReceiveWithoutListenerDeliversNothing` | easyserialport/src/main/java/top/maybesix/easyserialport/EasySerialPort.java:205-212 | with no data listener nothing is delivered, whatever the reads |
| `ReadLoop.ReceiveDeliversWellFormedChunks` | easyserialport/src/main/java/top/maybesix/easyserialport/EasySerialPort.java:203-207 | every delivered chunk has the current port, a size in 1..512 and a 512-byte buffer |
| `ReadLoop.ReceiveDeliversPositiveChunks` | easyserialport/src/main/java/top/maybesix/easyserialport/EasySerialPort.java:198-215 | with a listener, the loop delivers exactly one chunk per positive read it consumed, in order, and nothing for sizes 0 or -1 |
| `ReadLoop.ReceiveCallsListenerOncePerPositiveRead` | easyserialport/src/main/java/top/maybesix/easyserialport/EasySerialPort.java:205-207 | with a data listener, the number of listener calls equals the number of positive reads consumed |
| `ReadLoop.ReceiveStopsAt` | easyserialport/src/main/java/top/maybesix/easyserialport/EasySerialPort.java:209-213 | a read that stops the loop ends the run right after it, keeping what was delivered |
| `ReadLoop.ReceiveGoesOnAt` | easyserialport/src/main/java/top/maybesix/easyserialport/EasySerialPort.java:198-208 | a read that does not stop the loop appends its chunk (if any), and the run goes on from the next read |
| `EasySerial.ReadThread.constructor` | easyserialport/src/main/java/top/maybesix/easyserialport/EasySerialPort.java:133 | a new read thread is not interrupted |
| `EasySerial.ReadThread.Interrupt` | easyserialport/src/main/java/top/maybesix/easyserialport/EasySerialPort.java:146 | after an interrupt the thread is interrupted |
| `EasySerial.SendThread.constructor` | easyserialport/src/main/java/top/maybesix/easyserialport/EasySerialPort.java:222 | a new send thread starts suspended and not finished |
| `EasySerial.SendThread.SetSuspendFlag` | easyserialport/src/main/java/top/maybesix/easyserialport/EasySerialPort.java:249-251 | sets the suspend flag and changes nothing else |
| `EasySerial.SendThread.SetResume` | easyserialport/src/main/java/top/maybesix/easyserialport/EasySerialPort.java:256-259 | clears the suspend flag and changes nothing else |
| `EasySerial.SendThread.Cancel` | easyserialport/src/main/java/top/maybesix/easyserialport/EasySerialPort.java:144-154 | the thread is finished and its flag is as it was (used only by the corrected `close`) |
| `EasySerial.EasySerialPort.constructor` | easyserialport/src/main/java/top/maybesix/easyserialport/EasySerialPort.java:19-41 | a new instance is closed, with no handle, streams or threads, loop data `[0x30]`, delay 500, the given port, rate and data listener, and no states listener |
| `EasySerial.EasySerialPort.IsOpen` | easyserialport/src/main/java/top/maybesix/easyserialport/EasySerialPort.java:90-92 | reports the open flag |
| `EasySerial.EasySerialPort.IsNotOpen` | easyserialport/src/main/java/top/maybesix/easyserialport/EasySerialPort.java:99-101 | is always the negation of `IsOpen` |
| `EasySerial.EasySerialPort.GetBaudRate` | easyserialport/src/main/java/top/maybesix/easyserialport/EasySerialPort.java:262-264 | reports the configured rate |
| `EasySerial.EasySerialPort.GetPort` | easyserialport/src/main/java/top/maybesix/easyserialport/EasySerialPort.java:280-282 | reports the configured port |
| `EasySerial.EasySerialPort.GetLoopData` | easyserialport/src/main/java/top/maybesix/easyserialport/EasySerialPort.java:294-296 | reports the loop data |
| `EasySerial.EasySerialPort.GetDelay` | easyserialport/src/main/java/top/maybesix/easyserialport/EasySerialPort.java:326-328 | reports the delay |
| `EasySerial.EasySerialPort.SetSerialPortReceivedListener` | easyserialport/src/main/java/top/maybesix/easyserialport/EasySerialPort.java:77-79 | replaces the data listener and nothing else |
| `EasySerial.EasySerialPort.SetSatesListener` | easyserialport/src/main/java/top/maybesix/easyserialport/EasySerialPort.java:81-83 | replaces the states listener and nothing else |
| `EasySerial.EasySerialPort.BaseOpen` | easyserialport/src/main/java/top/maybesix/easyserialport/EasySerialPort.java:129-139 | success: open, handle and both streams for the configured port and rate, a fresh read thread, a fresh suspended send thread, nothing else changed; refusal: nothing changed; `getOutputStream` failure (line 131): only the handle replaced, `openState` untouched; no listener event |
| `EasySerial.EasySerialPort.StartSession` | easyserialport/src/main/java/top/maybesix/easyserialport/EasySerialPort.java:131-138 | after the handle exists: streams from it, fresh threads with the send thread suspended, and `openState` set last |
| `EasySerial.EasySerialPort.Open` | easyserialport/src/main/java/top/maybesix/easyserialport/EasySerialPort.java:105-127 | the effects of `baseOpen`, then exactly one `onOpen` event, with an empty reason on success and the failure kind's reason otherwise; the session is open afterwards exactly when it was open before or this acquisition succeeded |
| `EasySerial.EasySerialPort.CloseAsWritten` | easyserialport/src/main/java/top/maybesix/easyserialport/EasySerialPort.java:144-154 | whatever the state: closed, no handle, the read thread interrupted, exactly one `onClose`, every other field (the send thread included) unchanged |
| `EasySerial.EasySerialPort.Close` | easyserialport/src/main/java/top/maybesix/easyserialport/EasySerialPort.java:144-154 | as written, and the send thread is finished |
| `EasySerial.EasySerialPort.Write` | easyserialport/src/main/java/top/maybesix/easyserialport/EasySerialPort.java:164-171 | a write that succeeds is recorded once; a failing write (IOException) is dropped without trace |
| `EasySerial.EasySerialPort.SendAsWritten` | easyserialport/src/main/java/top/maybesix/easyserialport/EasySerialPort.java:161-172 | open: write only, no state change, no `onOpen`; closed: the whole `open` (one `onOpen`), then a write, or a NullPointerException if no output stream exists |
| `EasySerial.EasySerialPort.Send` | easyserialport/src/main/java/top/maybesix/easyserialport/EasySerialPort.java:161-172 | open: write only, no state change; closed: the whole `open` with its one report, then the write only if that open succeeded; never throws |
| `EasySerial.EasySerialPort.StartSend` | easyserialport/src/main/java/top/maybesix/easyserialport/EasySerialPort.java:342-346 | clears the send thread's suspend flag if there is a send thread; nothing else changes |
| `EasySerial.EasySerialPort.StopSend` | easyserialport/src/main/java/top/maybesix/easyserialport/EasySerialPort.java:351-355 | sets the send thread's suspend flag if there is a send thread; nothing else changes |
| `EasySerial.EasySerialPort.SetBaudRate` | easyserialport/src/main/java/top/maybesix/easyserialport/EasySerialPort.java:266-273 | returns false and changes nothing while open; otherwise returns true and replaces only the rate |
| `EasySerial.EasySerialPort.SetPort` | easyserialport/src/main/java/top/maybesix/easyserialport/EasySerialPort.java:284-291 | returns false and changes nothing while open; otherwise returns true and replaces only the port |
| `EasySerial.EasySerialPort.SetLoopData` | easyserialport/src/main/java/top/maybesix/easyserialport/EasySerialPort.java:303-305 | replaces the loop data and nothing else, open or not |
| `EasySerial.EasySerialPort.SetDelay` | easyserialport/src/main/java/top/maybesix/easyserialport/EasySerialPort.java:335-337 | replaces the delay and nothing else, open or not |
| `EasySerial.EasySerialPort.RunReadThread` | easyserialport/src/main/java/top/maybesix/easyserialport/EasySerialPort.java:196-215 | an interrupted thread or a missing input stream returns at once; otherwise the loop's deliveries, reads consumed and return agree with `Receive`; no field, `openState` included, is changed |
| `EasySerial.EasySerialPort.SendThreadIteration` | easyserialport/src/main/java/top/maybesix/easyserialport/EasySerialPort.java:225-244 | a suspended or finished thread does nothing; a running one does what `send` as written does with the current loop data (reopening a closed session, then writing to the current output stream, which always exists once a send thread does), reports the write's outcome, stays running, and ends only if the delay is negative |
| `EasySerial.Builder.constructor` | easyserialport/src/main/java/top/maybesix/easyserialport/EasySerialPort.java:43-47 | no port, rate 9600, no listeners |
| `EasySerial.Builder.SetPort` | easyserialport/src/main/java/top/maybesix/easyserialport/EasySerialPort.java:49-52 | sets only the port and returns the same builder |
| `EasySerial.Builder.SetBaudRate` | easyserialport/src/main/java/top/maybesix/easyserialport/EasySerialPort.java:54-57 | sets only the rate and returns the same builder |
| `EasySerial.Builder.SetListener` | easyserialport/src/main/java/top/maybesix/easyserialport/EasySerialPort.java:59-62 | sets only the data listener and returns the same builder |
| `EasySerial.Builder.SetSatesListener` | easyserialport/src/main/java/top/maybesix/easyserialport/EasySerialPort.java:64-67 | sets only the states listener and returns the same builder |
| `EasySerial.Builder.BuildAsWritten` | easyserialport/src/main/java/top/maybesix/easyserialport/EasySerialPort.java:69-74 | fails with "port is null or empty!" exactly for a null or empty port; otherwise a fresh closed instance with the builder's port, rate and data listener and no states listener |
| `EasySerial.Builder.Build` | easyserialport/src/main/java/top/maybesix/easyserialport/EasySerialPort.java:69-74 | as written, but the states listener is passed on; a built instance is not open, has loop data `[0x30]` and delay 500, and reports the builder's port and rate |
| `EasySerial.CloseTwice` | easyserialport/src/main/java/top/maybesix/easyserialport/EasySerialPort.java:144-154 | a second `close` leaves the same state as the first and reports `onClose` once more |
| `EasySerial.CloseThenSendThreadIteration` | easyserialport/src/main/java/top/maybesix/easyserialport/EasySerialPort.java:144-154 | with the corrected `close`, the old send thread's next cycle neither reopens the port nor writes |
| `EasySerial.SendAfterRefusedOpenThrows` | easyserialport/src/main/java/top/maybesix/easyserialport/EasySerialPort.java:161-168 | a built instance whose automatic open is refused throws from `send` |
| `EasySerial.StaleStreamWriteAfterRefusedReopen` | easyserialport/src/main/java/top/maybesix/easyserialport/EasySerialPort.java:144-154 | after `open`, `startSend` and `close`, a send-thread cycle whose reopen is refused still attempts a write of the loop data to the stream the closed session left set (whether the released descriptor accepts it is the `writeOk` input) |
| `EasySerial.SendThreadOutlivesClose` | easyserialport/src/main/java/top/maybesix/easyserialport/EasySerialPort.java:144-154 | after `open`, `startSend` and `close`, the send thread's next cycle reopens the port, and `stopSend` no longer reaches that thread |
| `EasySerial.BuildDropsStatesListener` | easyserialport/src/main/java/top/maybesix/easyserialport/EasySerialPort.java:73 | a states listener set on the builder is missing from the built instance |

## Left out

- Thread scheduling is not modelled: `Thread.start`, `wait`/`notify`, the blocking `read`, the `Thread.sleep` timing and the interleaving of the two workers with callers. Each worker is stepped by hand (`RunReadThread`, `SendThreadIteration`), and the state they read is fixed during a step.
- The native `SerialPort`, `File` and the stream objects are not modelled. The device's answer to an open, the success of each write and the read results are inputs. Streams are identified by the handle they came from.
- `Log.i`, `Log.e` and `printStackTrace` are logging only and are left out.
- `sendHex`, `sendTxtString`, `setBaudRate(String)` and `setLoopData(String, boolean)` depend on `HexStringUtils`, `String.getBytes` and `Integer.parseInt`. These are library conversions outside this model (`HexStringUtils` is not part of this model).
- Listeners are modelled only by their presence. `Open`, `CloseAsWritten` and `Close` require a states listener, and so do `Send`, `SendAsWritten` and `SendThreadIteration` on a closed session. Without one, the source throws a NullPointerException from the listener call; that fault is a precondition here, not a modelled path.
- Open: a states listener whose `onOpen(true, "")` throws is not modelled. In the source (line 109) that exception is caught by one of the clauses at lines 110-126, which makes a second call `onOpen(false, reason)` while `openState` is already true, so the "exactly one `onOpen`" of `Open` holds only for listeners that return normally.
- ReadIteration: a data listener that throws is not modelled. In the source (line 207) the exception is caught by `catch (Throwable e)` at lines 210-212 and the loop returns silently; the model's iteration stops only on a failed read or a missing listener.
- RunReadThread: for the same reason, a run whose data listener throws on some chunk ends there in the source, while the model goes on delivering as `Receive` says.
- BaseOpen: of the steps after the handle is assigned, only a failure of `getOutputStream` (line 131) is modelled (`FailsAfterOpening`). A throw at lines 132-137 would also have left the streams or threads set and is not modelled.
- `loopData` is a value: a null array, and the aliasing between the array passed to `setLoopData` and later changes by the caller, are not modelled.
- A second `open` on an open session leaves the first session's threads running. The model creates the new threads, but nothing it states follows the orphaned ones.
- A read thread is stopped only through its interrupt flag, checked at the top of each pass. An interrupt arriving while `read` blocks is not modelled.
- The Java `int` fields `baudRate` and `delay` are `Int32`. No arithmetic is done on them, so no wrap-around arises.

## Findings

| source | as written | input that shows it | evidently intended | confidence | as-written member | corrected member |
|---|---|---|---|---|---|---|
| easyserialport/src/main/java/top/maybesix/easyserialport/EasySerialPort.java:161-172 | on a closed session `send` calls `open()` and then writes to `outputStream` unconditionally; only IOException is caught | a built instance that never opened, with an open the device refuses: `outputStream` is still null and the NullPointerException escapes `send` | write only if the automatic open succeeded | not executed | `EasySerial.SendAfterRefusedOpenThrows` | `EasySerial.EasySerialPort.Send` |
| easyserialport/src/main/java/top/maybesix/easyserialport/EasySerialPort.java:144-154 | `close` interrupts the read thread but leaves the send thread running | `open`, `startSend`, `close`: the send thread's next cycle calls `send` on the closed session, which opens the port again; a later `stopSend` suspends only the new session's send thread | closing also ends periodic sending | not executed | `EasySerial.SendThreadOutlivesClose` | `EasySerial.EasySerialPort.Close` |
| easyserialport/src/main/java/top/maybesix/easyserialport/EasySerialPort.java:69-74 | `build` constructs the instance without the states listener the builder collected | `setPort("/dev/ttyS1")`, `setSatesListener(l)`, `build()`: the instance has no states listener, so its `open` fails with a NullPointerException | the builder's states listener is passed to the instance | not executed | `EasySerial.BuildDropsStatesListener` | `EasySerial.Builder.Build` |
