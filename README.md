# Serial port object, modelled in Dafny

This project models `serial::Serial`, a C++ port object for Linux serial
devices (src/serial.cpp, declared in inc/serial.hpp). The object stores a
device path, a baud rate and a read timeout in seconds. It also keeps an
open/closed flag and a file descriptor. `open` acquires and configures the
device. `close` releases it. The device operations (`read`, `readline`,
`write`, the two buffer resets and the control-line getters and setters)
first check the flag and then make one or a few POSIX calls. `is_open`, the
accessors `port`, `baudrate` and `timeout`, and their setters check nothing
and make no call: they return or overwrite a field. The model keeps all of the
object's own logic:

- the open/closed state machine with every failure exit of `open` and `close`;
- the baud-rate table;
- the accumulation loop of `read(size)`;
- the NUL-terminated line buffer of `readline`;
- the bit tests of the control-line getters;
- the guards on every operation, the accessors and the setters.

Every POSIX call is an oracle: a parameter that gives the call's return value.
For `read(2)` the oracle also gives the bytes it delivered. A call whose
argument matters is modelled as a function of that argument. So the contracts
show which call the object makes: `::open` on the stored path, `tcflush` on the
input, output or both queues, `select` in round `k` with the current deadline,
`read` of the bytes still missing, and `ioctl` with a TIOCMBIS or TIOCMBIC
request. Every possible OS answer is therefore covered.

Modules:

- `Outcomes`: the two exception classes `SerialError` and
  `SerialTimeoutException` as variants of one datatype. Neither is a subtype of
  the other. Also the `Outcome` (void) and `Result` (value) wrappers.
- `OsCalls`: `int32`, `uint32` and `byte`; the oracle datatypes; and the sign
  test that turns the stored timeout into a `select` deadline.
- `Baud`: the six supported rates and their termios speed tokens.
- `Modem`: the TIOCM bits (Linux values), the bit-set and bit-clear requests,
  and what the driver does with them.
- `LineIo`: pure specifications of `read(size)` and `readline()`.
- `SerialPort`: the port state, the specifications of `open` and `close`, and
  the class `Serial` whose methods are proved to follow them.

Behaviour of the code that a reader might not expect, and that the model
keeps:

- A configuration failure inside `open` leaves the flag set. This covers
  `tcgetattr`, an unsupported baud rate, the speed calls, `tcsetattr` and the
  flush. The flag is set right after `flock` succeeds (src/serial.cpp:65) and
  no later exit clears it, so a failed `open` can leave the port open.
- `readline` accepts a read of exactly 256 bytes. It writes the terminator
  only when `num < 256 + 1` (src/serial.cpp:239), so only a longer read
  reports "Index out of bounds".
- `readline` returns the bytes only up to the first NUL, because the buffer is
  turned into a C string.
- After a failed `flock`, `open` keeps the descriptor and does not close it,
  with the flag false. So "descriptor valid if and only if open" holds in one
  direction only. `ValidState` is that direction: an open port holds a
  descriptor `::open` accepted.
- `dsr()` tests `TIOCM_LE` (0x001), not `TIOCM_DSR` (0x100). The model keeps
  this and `GetDsr` states it.

## Model

| member | source | states |
|---|---|---|
| `OsCalls.WaitFor` | src/serial.cpp:281-288 | a negative stored timeout means no deadline for `select`; any other timeout is passed on as the deadline |
| `Baud.SpeedFor` | src/serial.cpp:81-105 | a rate has a speed token exactly when it is 9600, 19200, 38400, 57600, 115200 or 1000000 |
| `Baud.RateOf` | src/serial.cpp:83-102 | each of the six tokens maps back through the table to its own supported rate |
| `Baud.SpeedForRoundTrip` | src/serial.cpp:83-102 | the token chosen for a rate stands for that very rate, so no two rates share a token |
| `Modem.TestedBit` | src/serial.cpp:420-483 | the RTS, DTR and CTS getters test their own single bit; the DSR getter tests TIOCM_LE, which differs from TIOCM_DSR |
| `Modem.RequestFor` | src/serial.cpp:367-401 | a setter sends TIOCMBIS with the line's bit for state true and TIOCMBIC for state false |
| `Modem.Apply` | src/serial.cpp:371-400 | a set request turns the masked bit on and a clear request turns it off |
| `Modem.ApplyKeepsOtherBits` | src/serial.cpp:371-400 | a set or clear request leaves every bit outside its mask as it was |
| `Modem.SetThenGet` | src/serial.cpp:363-492 | after a setter writes RTS or DTR, the bit named after the line, to a state, that line's getter reads back the state, and every other getter, DSR included, reads what it read before |
| `LineIo.Take` | src/serial.cpp:311-317 | the copy loop keeps the longest prefix of a chunk that still fits in the buffer |
| `LineIo.ReadRounds` | src/serial.cpp:291-324 | a successful read is exactly `size` bytes long and keeps, in order, every byte collected in earlier rounds; a round that still misses bytes ends the read with "Select failed" when its `select` returns -1, with the timeout exception when it returns 0, and with "Unable to read data on serialport" when its read returns 0 or less; no other failure occurs |
| `LineIo.ReadRoundsFailureCause` | src/serial.cpp:294-308 | the loop times out only when some `select` returned 0, reports "Select failed" only when some `select` returned -1, and reports a read error only when some ready round's `read(2)` of between 1 and `size` bytes returned 0 or less |
| `LineIo.TimeoutDiscardsCollected` | src/serial.cpp:296-301 | when a first round delivers bytes and the next `select` times out, the read throws SerialTimeoutException and the collected bytes are lost |
| `LineIo.ForeverNeverTimesOut` | src/serial.cpp:281-301 | with no deadline and a `select` that honours it, the read loop never throws SerialTimeoutException |
| `LineIo.StreamRoundTrip` | src/serial.cpp:291-324 | when the device delivers a byte stream in pieces of any sizes, the read returns the first `size` bytes of the stream, in order, none lost or repeated |
| `LineIo.ReadResult` | src/serial.cpp:259-332 | `read` on a closed port throws "Serial is closed"; a failed `tcgetattr` or `tcsetattr` throws its own SerialError; a success has exactly `size` bytes; `size == 0` returns empty without polling; with `size > 0`, a first `select` of -1 throws "Select failed", one of 0 throws the timeout exception (so a read with no data times out), and a ready first round whose read returns 0 or less throws the read error; conversely each failure comes only from such a `select` or read in some round; a negative timeout, with a `select` that honours no deadline, never times out |
| `LineIo.CutAtNul` | src/serial.cpp:241-242 | the C string is the prefix of the buffer that holds no NUL and stops at the first NUL or at the end |
| `LineIo.CutAtNulUnique` | src/serial.cpp:241-242 | that prefix is the only one with these properties |
| `LineIo.ReadlineResult` | src/serial.cpp:192-256 | closed port, `tcgetattr` and `tcsetattr` failures throw their own errors; "Select failed" exactly when `select` returns -1, the timeout exception exactly when it returns 0, "Unable to read data on serialport" exactly when `read(2)` returns 0 or less, and "Index out of bounds" exactly when it returns more than 256 bytes; otherwise the line is the read cut at its first NUL, at most 256 bytes, and a read without NUL comes back whole; a read within its 256-byte request never overflows; a negative timeout, with a `select` that honours no deadline, never times out |
| `SerialPort.OpenResult` | src/serial.cpp:53-125 | already open: throws "already open" and changes nothing; only the flag and descriptor change; a failed `::open` throws "Unable to open serialport", a failed `flock` "already locked by another process", and after both succeed the outcome is that of `ConfigureOutcome`; the flag ends true exactly when `::open` and `flock` succeed; success exactly when every call succeeds at a supported rate; an unsupported rate, after `::open`, `flock` and `tcgetattr` succeeded, throws "Baudrate is not supported" with the flag already true; `ValidState` is kept |
| `SerialPort.ConfigureOutcome` | src/serial.cpp:68-119 | the configuration steps run in order and the first that fails throws its own SerialError: "Failed to read existing port settings", "Baudrate is not supported", "Failed to set port speed" for either speed call, "Failed to set port settings", "Unable to flush"; success exactly when every step succeeds; never a timeout |
| `SerialPort.CloseResult` | src/serial.cpp:128-145 | closed: throws "already closed" and changes nothing; only the flag changes, and it drops exactly when the descriptor is valid and both unlock and close succeed; on an open port in `ValidState` the invalid-descriptor exit cannot happen, so success depends on unlock and close alone; `ValidState` is kept |
| `SerialPort.OpenThenClose` | src/serial.cpp:53-145 | opening at a supported rate with every call succeeding, then closing with succeeding calls, ends closed with the configuration unchanged |
| `SerialPort.OpenTwice` | src/serial.cpp:55-124 | once `::open` and `flock` have succeeded, a second `open` throws "already open" and changes nothing |
| `SerialPort.CopyChunk` | src/serial.cpp:311-317 | the in-place copy writes the fitting prefix of the chunk after the bytes already in the buffer, keeps those bytes and leaves the rest of the buffer untouched |
| `SerialPort.PollRounds` | src/serial.cpp:291-324 | the `select`/`read` loop that accumulates into a `size`-byte array returns exactly what `ReadRounds` specifies from an empty buffer in round 0 |
| `SerialPort.Serial.constructor` | src/serial.cpp:30-36 | stores path, rate and timeout, closed |
| `SerialPort.Serial.Default` | src/serial.cpp:38 | "/dev/ttyUSB0", 9600 Bd, 1.0 s, closed |
| `SerialPort.Serial.WithPort` | src/serial.cpp:39 | the given path and rate, 1.0 s, closed |
| `SerialPort.Serial.Open` | src/serial.cpp:53-125 | the outcome and new fields are those of `OpenResult`; an object invariant `Valid` is kept |
| `SerialPort.Serial.Close` | src/serial.cpp:128-145 | the outcome and new fields are those of `CloseResult`; `Valid` is kept; under `Valid` an open port never takes the invalid-descriptor exit, so it closes exactly when unlock and close succeed |
| `SerialPort.Serial.Dispose` | src/serial.cpp:41-50 | the destructor's fields are those `close` leaves, whatever it throws |
| `SerialPort.Serial.Write` | src/serial.cpp:148-189 | closed: throws "Serial is closed" whatever `::write` would return; open: returns the byte count `::write` reports, or throws when it is negative |
| `SerialPort.Serial.Read` | src/serial.cpp:259-332 | the guards, then the in-place accumulation of `PollRounds`, return what `ReadResult` specifies |
| `SerialPort.Serial.Readline` | src/serial.cpp:192-256 | filling the 257-byte buffer, writing the terminator and scanning to the NUL returns what `ReadlineResult` specifies |
| `SerialPort.Serial.ResetInputBuffer` | src/serial.cpp:335-346 | closed: throws "Serial is closed" with no flush; open: succeeds exactly when flushing the input queue succeeds |
| `SerialPort.Serial.ResetOutputBuffer` | src/serial.cpp:349-360 | closed: throws "Serial is closed" with no flush; open: succeeds exactly when flushing the output queue succeeds |
| `SerialPort.Serial.SetLine` | src/serial.cpp:363-408 | a setter sends the set or clear request for the bit named after its line (TIOCM_RTS or TIOCM_DTR) and succeeds exactly when that request succeeds; failure throws the line's "Unable to write" message; closed: throws "Serial is closed" |
| `SerialPort.Serial.SetRts` | src/serial.cpp:363-384 | `rts(state)` sends TIOCMBIS or TIOCMBIC with TIOCM_RTS; throws "Unable to write RTS" when that fails |
| `SerialPort.Serial.SetDtr` | src/serial.cpp:387-408 | `dtr(state)` sends TIOCMBIS or TIOCMBIC with TIOCM_DTR; throws "Unable to write DTR" when that fails |
| `SerialPort.Serial.QueryLine` | src/serial.cpp:411-492 | a getter returns the line's tested bit of the TIOCMGET word; it throws when TIOCMGET fails or the port is closed |
| `SerialPort.Serial.GetRts` | src/serial.cpp:411-429 | `rts()` is bit 0x004 of the status word |
| `SerialPort.Serial.GetDtr` | src/serial.cpp:432-450 | `dtr()` is bit 0x002 of the status word |
| `SerialPort.Serial.GetCts` | src/serial.cpp:453-471 | `cts()` is bit 0x020 of the status word |
| `SerialPort.Serial.GetDsr` | src/serial.cpp:474-492 | `dsr()` is bit 0x001 (line enable) of the status word, and flipping the DSR bit 0x100 never changes the answer |
| `SerialPort.Serial.IsOpen` | src/serial.cpp:495-498 | returns the flag, with no OS call |
| `SerialPort.Serial.Port` | src/serial.cpp:501-504 | returns the stored path |
| `SerialPort.Serial.Baudrate` | src/serial.cpp:513-516 | returns the stored rate |
| `SerialPort.Serial.Timeout` | src/serial.cpp:525-528 | returns the stored timeout |
| `SerialPort.Serial.SetPort` | src/serial.cpp:507-510 | stores the path and changes nothing else; an open descriptor and the flag are untouched |
| `SerialPort.Serial.SetBaudrate` | src/serial.cpp:519-522 | stores the rate and changes nothing else; it is not checked until the next `open` |
| `SerialPort.Serial.SetTimeout` | src/serial.cpp:531-534 | stores the timeout and changes nothing else |

## Left out

- The contents of the termios structure are not modelled: the flag words, VMIN/VTIME, and the canonical and raw toggles of `read` and `readline`. The semantics of `tcgetattr`, `tcsetattr` and `cfset*speed` are not modelled either. Each call is an oracle that succeeds or fails.
- `select` and `fd_set` mechanics, and the 10 ms settle delay before the flush in `open`, are not modelled. `select` is an oracle for each round that may return -1, 0 or a ready count. Linux shrinks the timeval between rounds; that is also left to the oracle.
- The float-to-`timeval` conversion (seconds and microseconds) is not modelled because it is floating-point numerics. The timeout is a `real`, and only its sign is used, to choose between no deadline and a deadline.
- `operator<<` is not modelled. It only formats the stored fields as text (path, rate with " Bd", the timeout or "None" when it is negative, and "Open" or "Closed"), and one of them is a float.
- Cross-process `flock` exclusivity is not modelled because it is OS-level concurrency. The deleted copy constructor is a C++ type rule with no Dafny counterpart.
- src/main.cpp is not part of this model: it is a hardware demo program.
- SerialPort.Serial.constructor: the C++ constructor leaves `serial_fd` uninitialised; the model stores -1.
- SerialPort.Serial.Read: `num` is unbounded here, not a `uint32`. It can wrap in the source only if one `read(2)` returned more bytes than requested, which POSIX rules out.
- SerialPort.Serial.Readline: the C++ stack buffer has 257 slots. A `read(2)` that returned 257 bytes, one more than requested, still fits and throws "Index out of bounds". Only a read of more than 257 bytes would overrun the buffer. The model reports "Index out of bounds" for every read longer than 256 bytes and does not model the overrun.
- A C++ `std::string` is a byte string, so the model treats it as a sequence of bytes. The two `write` overloads send their bytes the same way and are one member, `Write`.
