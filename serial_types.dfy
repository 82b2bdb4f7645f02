/**
  Values shared by the serial-port facade: Java's integer widths, the outcome
  of asking the native device to open, the reason strings `open` reports, the
  listener callbacks, and what one blocking read of the input stream returns.
 */
module SerialTypes {

  /** Java's `int`. */
  newtype Int32 = x: int | -0x8000_0000 <= x < 0x8000_0000

  /** Java's signed `byte`. */
  newtype Byte = b: int | -128 <= b < 128

  datatype Option<+T> = None | Some(value: T)

  datatype Result<+T, +E> = Success(value: T) | Failure(error: E)

  /** The exception classes `open` tells apart, one per catch clause. */
  datatype FailureKind = Security | IO | InvalidParameter | Other

  /**
    What the native device does when `baseOpen` asks for it: it opens, it
    refuses while the handle is being constructed (nothing is assigned), or
    `getOutputStream` throws right after the handle was assigned.
   */
  datatype DeviceOutcome = Accepts | Refuses(kind: FailureKind) | FailsAfterOpening(kind: FailureKind)

  /** The native handle, identified by the path and rate it was opened with. */
  datatype DeviceHandle = DeviceHandle(path: string, baudRate: Int32)

  /** How far `baseOpen` gets. `Abandoned` is the half-open case: a handle was assigned, then `getOutputStream` threw. */
  datatype Acquisition =
    | Acquired(handle: DeviceHandle)
    | Refused(kind: FailureKind)
    | Abandoned(handle: DeviceHandle, kind: FailureKind)
  {
    predicate Succeeded() { Acquired? }
  }

  /**
    The outcome of `baseOpen` for the configured port and rate. A null port
    makes `new File(null)` throw a NullPointerException before the device is
    touched, which `open` files under "any other exception".
   */
  function Acquire(port: Option<string>, baudRate: Int32, device: DeviceOutcome): (a: Acquisition)
    ensures a.Succeeded() <==> port.Some? && device.Accepts?
    ensures !a.Refused? ==> port.Some? && a.handle == DeviceHandle(port.value, baudRate)
    ensures port.None? ==> a == Refused(Other)
    ensures port.Some? && !device.Accepts? ==>
              && a.kind == device.kind
              && (a.Abandoned? <==> device.FailsAfterOpening?)
  {
    if port.None? then Refused(Other)
    else match device
      case Accepts => Acquired(DeviceHandle(port.value, baudRate))
      case Refuses(kind) => Refused(kind)
      case FailsAfterOpening(kind) => Abandoned(DeviceHandle(port.value, baudRate), kind)
  }

  const PermissionDenied: string := "没有串口读/写权限!"
  const UnknownError: string := "未知错误!"
  const ParameterError: string := "参数错误!"
  const OtherError: string := "其他错误!"

  /** The reason `open` hands to `onOpen(false, reason)` for each kind of failure. */
  function OpenReason(kind: FailureKind): (reason: string)
    ensures reason != ""
  {
    match kind
    case Security => PermissionDenied
    case IO => UnknownError
    case InvalidParameter => ParameterError
    case Other => OtherError
  }

  /** The four reasons are distinct, so a listener can tell the failure kind from the reason alone. */
  lemma OpenReasonIdentifiesKind(k1: FailureKind, k2: FailureKind)
    requires OpenReason(k1) == OpenReason(k2)
    ensures k1 == k2
  {
  }

  /** A callback on the states listener, or a completed write to the output stream. */
  datatype Event = OnOpen(success: bool, reason: string) | OnClose | Wrote(bytes: seq<Byte>)

  /** The one `onOpen` call that `open` makes after `baseOpen` returns or throws. */
  function OpenReport(a: Acquisition): (e: Event)
    ensures e.OnOpen?
    ensures e.success <==> a.Succeeded()
    ensures e.reason == "" <==> e.success
    ensures !a.Succeeded() ==> e.reason == OpenReason(a.kind)
  {
    if a.Acquired? then OnOpen(true, "") else OnOpen(false, OpenReason(a.kind))
  }

  /** Capacity of the buffer the read thread allocates for every read. */
  const BufferSize: int := 512

  /**
    One call of `inputStream.read(buffer)`: the size it returns with the
    bytes it stored at the front of the buffer, or an exception.
   */
  datatype ReadOutcome = Returned(size: int, bytes: seq<Byte>) | Threw

  /**
    The contract of `InputStream.read(byte[])` on a 512-byte buffer: -1 at end
    of stream, otherwise the number of bytes stored, at most the capacity.
   */
  predicate Honours(r: ReadOutcome)
  {
    r.Returned? ==> -1 <= r.size <= BufferSize && |r.bytes| == (if r.size > 0 then r.size else 0)
  }

  /** A read result the stream can actually produce. */
  type ReadResult = r: ReadOutcome | Honours(r) witness Threw

  /** The arguments of `new ComPortData(port, buffer, size)`: the whole buffer and the count read. */
  datatype ComPortData = ComPortData(port: Option<string>, buffer: seq<Byte>, size: int)
}
