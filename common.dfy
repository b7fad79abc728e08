// Shared constants, C arithmetic and the first-wins error latch used by every
// component of the stage driver firmware.
module Common {

  datatype Option<T> = None | Some(value: T)

  // Error codes returned by every operation (Common.h)
  const ErrNone := 0
  const ErrSerial := -1
  const ErrMotor := -2
  const ErrTmc := -3
  const ErrParameter := -4
  const ErrRemote := -5

  // Firmware version stored in the flash image and reported by GPC_VERS
  const Version := 1

  // Table sizes
  const MaxNumMotors := 4
  const MaxErrorStringSize := 200
  const RemoteNumParams := 5
  const MotorsNumParams := 34
  const MotorsNumStatus := 8

  // Device types (MotorType enum); stored as plain integers like the C enum
  const MotorNone := 0
  const MotorSim := 1
  const MotorTmc := 2

  // Axis types (AxisType enum)
  const AxisUndef := 0
  const AxisX := 1
  const AxisY := 2
  const AxisZ := 3
  const AxisAux := 4

  // Configuration requests (ConfigType enum)
  const ConfigDefault := 0
  const ConfigReconfig := 1
  const ConfigLoadFromFlash := 2

  // Polling intervals in milliseconds
  const SerialCheckIntervalMs := 20
  const RemoteSendIntervalMs := 200
  const RemoteReceiveIntervalMs := 10

  /** MSG_MAXLENGTH: the UART buffers and RemoteComm's message buffer. */
  const MsgMaxLength := 1024
  const MotorsCheckErrorIntervalMs := 50
  const MotorsCheckStatusIntervalMs := 10

  const Int32Min := -0x8000_0000
  const Int32Max := 0x7FFF_FFFF

  predicate ValidBoard(board: int) { 0 <= board < MaxNumMotors }

  predicate IsInt32(x: int) { Int32Min <= x <= Int32Max }

  function Abs(x: int): (r: int)
    ensures r >= 0 && (r == x || r == -x)
  { if x < 0 then -x else x }

  /** Two's-complement truncation to a signed 8-bit value (a cast to int8_t). */
  function WrapInt8(x: int): (r: int)
    ensures -128 <= r < 128
    ensures (x - r) % 256 == 0
    ensures -128 <= x < 128 ==> r == x
  { var m := x % 256; if m >= 128 then m - 256 else m }

  /** Truncation to an unsigned 8-bit value (a cast to uint8_t). */
  function WrapUint8(x: int): (r: int)
    ensures 0 <= r < 256
    ensures (x - r) % 256 == 0
    ensures 0 <= x < 256 ==> r == x
  { x % 256 }

  /** Two's-complement truncation to a signed 32-bit value (a cast to int32_t). */
  function WrapInt32(x: int): (r: int)
    ensures IsInt32(r)
    ensures IsInt32(x) ==> r == x
  { var m := x % 0x1_0000_0000; if m > Int32Max then m - 0x1_0000_0000 else m }

  /** strtol on a 32-bit long: out-of-range magnitudes saturate. */
  function Saturate32(x: int): (r: int)
    ensures IsInt32(r)
    ensures IsInt32(x) ==> r == x
    ensures x < Int32Min ==> r == Int32Min
    ensures x > Int32Max ==> r == Int32Max
  { if x < Int32Min then Int32Min else if x > Int32Max then Int32Max else x }

  /**
   * C integer division, which truncates toward zero (Dafny's `/` is Euclidean).
   */
  function TruncDiv(a: int, b: int): (q: int)
    requires b != 0
    ensures (a >= 0) == (b > 0) ==> q == Abs(a) / Abs(b)
    ensures (a >= 0) != (b > 0) ==> q == -(Abs(a) / Abs(b))
  {
    if (a >= 0) == (b > 0) then Abs(a) / Abs(b) else -(Abs(a) / Abs(b))
  }

  /** Elapsed time of two unsigned 32-bit millisecond readings (`now - last`). */
  const TimeModulus := 0x1_0000_0000

  predicate IsTime(t: int) { 0 <= t < TimeModulus }

  function Elapsed(now: int, last: int): (d: int)
    ensures IsTime(d)
    ensures (now - last - d) % TimeModulus == 0
    ensures IsTime(now) && IsTime(last) && last <= now ==> d == now - last
  { (now - last) % TimeModulus }

  /**
   * snprintf into a buffer of `size` bytes keeps at most size-1 characters
   * (the last byte holds the terminating NUL).
   */
  function Truncate(s: string, size: nat): (r: string)
    requires size > 0
    ensures |r| < size
    ensures r <= s
    ensures |s| < size ==> r == s
    ensures |s| >= size ==> |r| == size - 1
  { if |s| < size then s else s[..size - 1] }

  /**
   * The error latch every class keeps: a flag and a message of at most
   * MAXERRORSTRINGSIZE-1 characters. Only the first message after a clear is kept.
   */
  datatype Latch = Latch(flag: bool, msg: string)

  const ClearLatch := Latch(false, "")

  function Raise(l: Latch, msg: string): (r: Latch)
    ensures r.flag
    ensures l.flag ==> r == l
    ensures !l.flag ==> r.msg == Truncate(msg, MaxErrorStringSize)
    ensures |l.msg| < MaxErrorStringSize ==> |r.msg| < MaxErrorStringSize
  { if l.flag then l else Latch(true, Truncate(msg, MaxErrorStringSize)) }

  /** Once raised, later messages are dropped until the latch is printed and cleared. */
  lemma {:induction false} RaiseFirstWins(l: Latch, msgs: seq<string>)
    requires l.flag
    ensures RaiseAll(l, msgs) == l
    decreases |msgs|
  {
    if msgs != [] {
      RaiseFirstWins(Raise(l, msgs[0]), msgs[1..]);
    }
  }

  function RaiseAll(l: Latch, msgs: seq<string>): (r: Latch)
    decreases |msgs|
  { if msgs == [] then l else RaiseAll(Raise(l, msgs[0]), msgs[1..]) }

  /** Raising a clear latch with several messages keeps exactly the first one. */
  lemma {:induction false} RaiseKeepsFirst(l: Latch, msgs: seq<string>)
    requires !l.flag && msgs != []
    ensures RaiseAll(l, msgs) == Latch(true, Truncate(msgs[0], MaxErrorStringSize))
  {
    RaiseFirstWins(Raise(l, msgs[0]), msgs[1..]);
  }

  /** Integer powers of two, used for status words and the averaging window. */
  function Pow2(k: nat): (r: nat)
    ensures r >= 1
  { if k == 0 then 1 else 2 * Pow2(k - 1) }
}
