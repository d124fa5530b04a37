/** The operating-system calls the serial port makes, as oracles: each call's
    return value (and, for `read`, the bytes it delivers) is a parameter of the
    model, so every possible answer of the OS is covered. */
module OsCalls {

  /** C `int` and `uint32_t`. */
  type int32 = x: int | -0x8000_0000 <= x < 0x8000_0000
  type uint32 = x: int | 0 <= x < 0x1_0000_0000

  /** One byte, as `uint8_t` or `char` carry it. */
  type byte = x: int | 0 <= x < 256

  /** How long `select` may wait: a negative stored timeout passes a NULL
      timeval (no deadline); any other passes the timeout itself. */
  datatype Wait = Forever | Within(seconds: real)

  function WaitFor(timeout: real): (w: Wait)
    ensures w.Forever? <==> timeout < 0.0
    ensures w.Within? ==> w.seconds == timeout
  {
    if timeout < 0.0 then Forever else Within(timeout)
  }

  /** What one `read(2)` hands back: -1 (an error), or the bytes it stored,
      whose count is its return value (0 bytes is end of file). */
  datatype ReadReply = ReadError | Bytes(chunk: seq<byte>)

  /** The return value of that `read(2)` call. */
  function ReadCount(r: ReadReply): (n: int)
    ensures n <= 0 <==> r.ReadError? || r.chunk == []
    ensures r.Bytes? ==> n == |r.chunk|
  {
    match r
    case ReadError => -1
    case Bytes(chunk) => |chunk|
  }

  /** POSIX promises that `read(fd, buf, n)` stores at most `n` bytes. */
  predicate WithinRequest(r: ReadReply, requested: nat)
  {
    r.Bytes? ==> |r.chunk| <= requested
  }

  /** The queue `tcflush` discards: TCIFLUSH, TCOFLUSH or TCIOFLUSH. */
  datatype Queue = Input | Output | Both

  /** The calls `read` and `readline` make: `tcgetattr`, `tcsetattr` (to switch
      between raw and canonical mode), then, in round `k`, `select` with the
      wait and `read` of the requested number of bytes. */
  datatype PollIo = PollIo(
    getAttr: int32,
    setAttr: int32,
    select: (nat, Wait) -> int32,
    read: (nat, nat) -> ReadReply)

  /** A `select` that honours a NULL timeval never reports a timeout. */
  ghost predicate NeverTimesOutForever(io: PollIo)
  {
    forall k: nat :: io.select(k, Forever) != 0
  }
}
