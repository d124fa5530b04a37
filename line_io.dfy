/** What `read(size)` and `readline()` return, for every answer the OS can
    give: the accumulation of partial reads, the timeout and error exits, and
    the NUL-terminated line buffer. The methods of `SerialPort.Serial` are
    proved to compute exactly these. */
module LineIo {
  import opened Outcomes
  import opened OsCalls

  /** Capacity of readline's receive buffer, SERIAL_RX_LINE_BUFFER_SIZE; the
      array itself has one more slot for the terminating NUL. */
  const LineBufferSize: nat := 256

  /** The failures `read` throws after the closed-port check. */
  const ReadGetAttrError := SerialError("Serial read: Failed to read existing port settings.")
  const ReadSetAttrError := SerialError("Serial read: Failed to set port settings.")
  const ReadSelectError := SerialError("Serial read: Select failed.")
  const ReadTimeout := SerialTimeoutException("Serial read: Timeout occured")
  const ReadIoError := SerialError("Serial read: Unable to read data on serialport.")

  /** The failures `readline` throws after the closed-port check. */
  const LineGetAttrError := SerialError("Serial readline: Failed to read existing port settings.")
  const LineSetAttrError := SerialError("Serial readline: Failed to set port settings.")
  const LineSelectError := SerialError("Serial readline: Select failed.")
  const LineTimeout := SerialTimeoutException("Serial readline: Timeout occured")
  const LineIoError := SerialError("Serial readline: Unable to read data on serialport.")
  const LineOverflow := SerialError("Serial readline: Index out of bounds.")

  /** The port is open and the switch of line discipline succeeded, so the
      operation goes on to poll. */
  predicate Polls(open: bool, io: PollIo)
  {
    open && io.getAttr == 0 && io.setAttr == 0
  }

  /** A `select` result that `read` and `readline` treat as readable: neither -1 nor 0. */
  predicate Ready(status: int)
  {
    status != -1 && status != 0
  }

  /** The part of a chunk that still fits in the `size`-byte result: the copy
      loop of `read` stops at the first index `i` with `i + num >= size`. */
  function Take(chunk: seq<byte>, room: nat): (t: seq<byte>)
    ensures |t| == if |chunk| <= room then |chunk| else room
    ensures t == chunk[..|t|]
  {
    if |chunk| <= room then chunk else chunk[..room]
  }

  /** The polling loop of `read`, from round `k` on, with the bytes `acc`
      collected so far. Each round waits for readability, then reads at most
      the bytes still missing; the loop ends once `size` bytes are collected.
      A successful result is exactly `size` bytes long and keeps, in order,
      every byte collected before; a failure is one of the loop's three, and
      a round that still misses bytes ends the read with the failure its
      `select` or its read reports. */
  function ReadRounds(io: PollIo, wait: Wait, size: nat, acc: seq<byte>, k: nat): (r: Result<seq<byte>>)
    requires |acc| <= size
    ensures r.Ok? ==> |r.value| == size && r.value[..|acc|] == acc
    ensures r.Err? ==> r.failure == ReadSelectError || r.failure == ReadTimeout || r.failure == ReadIoError
    ensures |acc| < size && io.select(k, wait) == -1 ==> r == Err(ReadSelectError)
    ensures |acc| < size && io.select(k, wait) == 0 ==> r == Err(ReadTimeout)
    ensures |acc| < size && Ready(io.select(k, wait)) && ReadCount(io.read(k, size - |acc|)) <= 0
            ==> r == Err(ReadIoError)
    decreases size - |acc|
  {
    if |acc| == size then Ok(acc)
    else
      var status := io.select(k, wait);
      if status == -1 then Err(ReadSelectError)
      else if status == 0 then Err(ReadTimeout)
      else
        var reply := io.read(k, size - |acc|);
        if ReadCount(reply) <= 0 then Err(ReadIoError)
        else ReadRounds(io, wait, size, acc + Take(reply.chunk, size - |acc|), k + 1)
  }

  /** Which round caused a failure of the polling loop: a timeout only when
      some round's `select` returned 0; "Select failed" only when some round's
      `select` returned -1; "Unable to read" only when some ready round's read
      delivered nothing. */
  lemma {:induction false} ReadRoundsFailureCause(io: PollIo, wait: Wait, size: nat, acc: seq<byte>, k: nat)
    requires |acc| <= size
    ensures var r := ReadRounds(io, wait, size, acc, k);
      && (r == Err(ReadTimeout) ==> exists j: nat :: k <= j && io.select(j, wait) == 0)
      && (r == Err(ReadSelectError) ==> exists j: nat :: k <= j && io.select(j, wait) == -1)
      && (r == Err(ReadIoError) ==>
            exists j: nat, n: nat :: k <= j && 0 < n <= size && Ready(io.select(j, wait)) && ReadCount(io.read(j, n)) <= 0)
    decreases size - |acc|
  {
    if |acc| < size && Ready(io.select(k, wait)) {
      var reply := io.read(k, size - |acc|);
      if ReadCount(reply) > 0 {
        ReadRoundsFailureCause(io, wait, size, acc + Take(reply.chunk, size - |acc|), k + 1);
      }
    }
  }

  /** A timeout ends the read with SerialTimeoutException even when earlier
      rounds already delivered bytes: those bytes are discarded. */
  lemma TimeoutDiscardsCollected(io: PollIo, wait: Wait, size: nat, first: seq<byte>)
    requires 0 < |first| < size
    requires io.select(0, wait) > 0 && io.read(0, size) == Bytes(first)
    requires io.select(1, wait) == 0
    ensures ReadRounds(io, wait, size, [], 0) == Err(ReadTimeout)
  {
  }

  /** With no deadline and a `select` that honours it, the polling loop never
      reports a timeout. */
  lemma {:induction false} ForeverNeverTimesOut(io: PollIo, size: nat, acc: seq<byte>, k: nat)
    requires |acc| <= size
    ensures NeverTimesOutForever(io) ==>
      var r := ReadRounds(io, Forever, size, acc, k); !(r.Err? && r.failure.SerialTimeoutException?)
    decreases size - |acc|
  {
    if NeverTimesOutForever(io) && |acc| < size && io.select(k, Forever) != -1 {
      var reply := io.read(k, size - |acc|);
      if ReadCount(reply) > 0 {
        ForeverNeverTimesOut(io, size, acc + Take(reply.chunk, size - |acc|), k + 1);
      }
    }
  }

  /** `reply` is a non-empty stretch of the byte stream `s` starting at
      position `from`. */
  predicate StreamPiece(reply: ReadReply, s: seq<byte>, from: nat)
  {
    reply.Bytes? && 0 < |reply.chunk| && from + |reply.chunk| <= |s|
    && reply.chunk == s[from..from + |reply.chunk|]
  }

  /** Loop-back round trip: when the device delivers the byte stream `s` in
      pieces of any sizes, each read returning the stream's next bytes, the
      read returns the first `size` bytes of `s`, in order, with none lost. */
  lemma {:induction false} StreamRoundTrip(io: PollIo, wait: Wait, s: seq<byte>, size: nat, acc: seq<byte>, k: nat)
    requires |acc| <= size <= |s| && acc == s[..|acc|]
    requires forall j: nat :: io.select(j, wait) > 0
    requires forall j: nat, n: nat :: 0 < n <= size ==> StreamPiece(io.read(j, n), s, size - n)
    ensures ReadRounds(io, wait, size, acc, k) == Ok(s[..size])
    decreases size - |acc|
  {
    if |acc| < size {
      var reply := io.read(k, size - |acc|);
      assert StreamPiece(reply, s, |acc|);
      var next := acc + Take(reply.chunk, size - |acc|);
      assert next == s[..|next|];
      StreamRoundTrip(io, wait, s, size, next, k + 1);
    }
  }

  /** `read(size)`: the closed-port check, the switch to raw mode, then the
      polling loop with the deadline the stored timeout gives. */
  function ReadResult(open: bool, timeout: real, size: uint32, io: PollIo): (r: Result<seq<byte>>)
    ensures !open ==> r == Err(ClosedError("read"))
    ensures open && io.getAttr != 0 ==> r == Err(ReadGetAttrError)
    ensures open && io.getAttr == 0 && io.setAttr != 0 ==> r == Err(ReadSetAttrError)
    ensures Polls(open, io) && r.Err? ==>
      r.failure == ReadSelectError || r.failure == ReadTimeout || r.failure == ReadIoError
    ensures r.Ok? ==> Polls(open, io) && |r.value| == size
    ensures r == Err(ReadTimeout) ==> exists j: nat :: io.select(j, WaitFor(timeout)) == 0
    ensures r == Err(ReadSelectError) ==> exists j: nat :: io.select(j, WaitFor(timeout)) == -1
    ensures r == Err(ReadIoError) ==>
      exists j: nat, n: nat :: 0 < n <= size && Ready(io.select(j, WaitFor(timeout))) && ReadCount(io.read(j, n)) <= 0
    ensures open && io.getAttr == 0 && io.setAttr == 0 && size == 0 ==> r == Ok([])
    ensures Polls(open, io) && 0 < size && io.select(0, WaitFor(timeout)) == -1 ==> r == Err(ReadSelectError)
    ensures Polls(open, io) && 0 < size && io.select(0, WaitFor(timeout)) == 0 ==> r == Err(ReadTimeout)
    ensures Polls(open, io) && 0 < size && Ready(io.select(0, WaitFor(timeout)))
            && ReadCount(io.read(0, size as nat)) <= 0
            ==> r == Err(ReadIoError)
    ensures timeout < 0.0 && NeverTimesOutForever(io) ==> !(r.Err? && r.failure.SerialTimeoutException?)
  {
    if !open then Err(ClosedError("read"))
    else if io.getAttr != 0 then Err(ReadGetAttrError)
    else if io.setAttr != 0 then Err(ReadSetAttrError)
    else
      ForeverNeverTimesOut(io, size, [], 0);
      ReadRoundsFailureCause(io, WaitFor(timeout), size, [], 0);
      ReadRounds(io, WaitFor(timeout), size, [], 0)
  }

  /** The C string the buffer holds: the bytes before the first NUL. */
  function CutAtNul(s: seq<byte>): (r: seq<byte>)
    ensures |r| <= |s| && r == s[..|r|]
    ensures forall i :: 0 <= i < |r| ==> r[i] != 0
    ensures |r| < |s| ==> s[|r|] == 0
  {
    if s == [] then []
    else if s[0] == 0 then []
    else [s[0]] + CutAtNul(s[1..])
  }

  /** The bytes before the first NUL are the only prefix that holds no NUL
      and is followed by a NUL or by the end of the bytes. */
  lemma {:induction false} CutAtNulUnique(s: seq<byte>, p: seq<byte>)
    requires p <= s
    requires forall i :: 0 <= i < |p| ==> p[i] != 0
    requires |p| < |s| ==> s[|p|] == 0
    ensures p == CutAtNul(s)
  {
    if s != [] && s[0] != 0 {
      assert p != [] && p[0] == s[0];
      CutAtNulUnique(s[1..], p[1..]);
      assert p == [s[0]] + p[1..];
    }
  }

  /** `readline()`: the closed-port check, the switch to canonical mode, then
      a single wait and a single read of at most LineBufferSize bytes,
      returned up to the first NUL. */
  function ReadlineResult(open: bool, timeout: real, io: PollIo): (r: Result<seq<byte>>)
    ensures !open ==> r == Err(ClosedError("readline"))
    ensures open && io.getAttr != 0 ==> r == Err(LineGetAttrError)
    ensures open && io.getAttr == 0 && io.setAttr != 0 ==> r == Err(LineSetAttrError)
    ensures r == Err(LineSelectError) <==> Polls(open, io) && io.select(0, WaitFor(timeout)) == -1
    ensures r.Err? && r.failure.SerialTimeoutException? <==> Polls(open, io) && io.select(0, WaitFor(timeout)) == 0
    ensures r.Err? && r.failure.SerialTimeoutException? ==> r.failure == LineTimeout
    ensures r == Err(LineIoError) <==>
      Polls(open, io) && Ready(io.select(0, WaitFor(timeout))) && ReadCount(io.read(0, LineBufferSize)) <= 0
    ensures r == Err(LineOverflow) <==>
      Polls(open, io) && Ready(io.select(0, WaitFor(timeout))) && ReadCount(io.read(0, LineBufferSize)) > LineBufferSize
    ensures r.Ok? <==>
      Polls(open, io) && Ready(io.select(0, WaitFor(timeout))) && 0 < ReadCount(io.read(0, LineBufferSize)) <= LineBufferSize
    ensures r.Ok? ==> var reply := io.read(0, LineBufferSize);
      reply.Bytes? && |r.value| <= LineBufferSize && r.value == CutAtNul(reply.chunk)
      && ((forall i :: 0 <= i < |reply.chunk| ==> reply.chunk[i] != 0) ==> r.value == reply.chunk)
    ensures WithinRequest(io.read(0, LineBufferSize), LineBufferSize) ==> r != Err(LineOverflow)
    ensures timeout < 0.0 && NeverTimesOutForever(io) ==> !(r.Err? && r.failure.SerialTimeoutException?)
  {
    if !open then Err(ClosedError("readline"))
    else if io.getAttr != 0 then Err(LineGetAttrError)
    else if io.setAttr != 0 then Err(LineSetAttrError)
    else
      var status := io.select(0, WaitFor(timeout));
      if status == -1 then Err(LineSelectError)
      else if status == 0 then Err(LineTimeout)
      else
        var reply := io.read(0, LineBufferSize);
        var num := ReadCount(reply);
        if num <= 0 then Err(LineIoError)
        else if num < LineBufferSize + 1 then Ok(CutAtNul(reply.chunk))
        else Err(LineOverflow)
  }
}
