/** The serial port object: its stored configuration, the open/closed flag
    and the descriptor, the open/close state machine, and the guarded I/O,
    buffer-reset and control-line operations. */
module SerialPort {
  import opened Outcomes
  import opened OsCalls
  import opened Baud
  import opened Modem
  import opened LineIo

  /** The fields of a port object: port_stored, baudrate_stored,
      timeout_stored, open_flag and serial_fd. */
  datatype PortState = PortState(port: string, baudrate: uint32, timeout: real, openFlag: bool, fd: int32)

  /** An open port always holds a descriptor `::open` accepted. */
  predicate ValidState(st: PortState)
  {
    st.openFlag ==> st.fd >= 0
  }

  /** The answers of the calls `open` makes: `::open` on the stored path,
      `flock(LOCK_EX | LOCK_NB)`, `tcgetattr`, `cfsetispeed` and `cfsetospeed`
      with the speed token, `tcsetattr` and `tcflush`. */
  datatype OpenCalls = OpenCalls(
    open: string -> int32,
    lock: int32,
    getAttr: int32,
    setInputSpeed: Speed -> int32,
    setOutputSpeed: Speed -> int32,
    setAttr: int32,
    flush: Queue -> int32)

  /** Every call `open` makes succeeds for this port state. */
  predicate OpenCallsSucceed(st: PortState, c: OpenCalls)
  {
    c.open(st.port) >= 0 && c.lock >= 0 && c.getAttr == 0
    && (match SpeedFor(st.baudrate)
        case None => true
        case Some(s) => c.setInputSpeed(s) == 0 && c.setOutputSpeed(s) == 0)
    && c.setAttr == 0 && c.flush(Both) == 0
  }

  /** The answers of `flock(LOCK_UN)` and `::close` on the descriptor. */
  datatype CloseCalls = CloseCalls(unlock: int32, close: int32)

  /** `open()`: the outcome and the new fields. Only the descriptor and the
      flag ever change. The flag is raised as soon as the descriptor is
      opened and locked, so every later failure (settings, an unsupported
      baud rate, speed, flush) throws with the port left open; a failed
      `::open` or `flock` throws with the flag still false, and after a
      failed `flock` the descriptor is kept, not closed. */
  function OpenResult(st: PortState, c: OpenCalls): (res: (Outcome, PortState))
    ensures st.openFlag ==> res == (Fail(SerialError("Serial open: Serial is already open.")), st)
    ensures res.1 == st.(openFlag := res.1.openFlag, fd := res.1.fd)
    ensures !st.openFlag ==> res.1.fd == c.open(st.port)
    ensures !st.openFlag ==> (res.1.openFlag <==> c.open(st.port) >= 0 && c.lock >= 0)
    ensures !st.openFlag && c.open(st.port) < 0
            ==> res.0 == Fail(SerialError("Serial open: Unable to open serialport."))
    ensures !st.openFlag && c.open(st.port) >= 0 && c.lock < 0
            ==> res.0 == Fail(SerialError("Serial open: Serial port is already locked by another process."))
    ensures !st.openFlag && c.open(st.port) >= 0 && c.lock >= 0 ==> res.0 == ConfigureOutcome(st.baudrate, c)
    ensures res.0 == Pass <==> !st.openFlag && st.baudrate in SupportedRates && OpenCallsSucceed(st, c)
    ensures res.0.Fail? ==> res.0.failure.SerialError?
    ensures !st.openFlag && c.open(st.port) >= 0 && c.lock >= 0 && c.getAttr == 0
            && st.baudrate !in SupportedRates
            ==> res.0 == Fail(SerialError("Serial open: Baudrate is not supported.")) && res.1.openFlag
    ensures ValidState(st) ==> ValidState(res.1)
  {
    if st.openFlag then (Fail(SerialError("Serial open: Serial is already open.")), st)
    else
      var fd := c.open(st.port);
      if fd < 0 then (Fail(SerialError("Serial open: Unable to open serialport.")), st.(fd := fd))
      else if c.lock < 0 then
        (Fail(SerialError("Serial open: Serial port is already locked by another process.")), st.(fd := fd))
      else
        var locked := st.(fd := fd, openFlag := true);
        (ConfigureOutcome(st.baudrate, c), locked)
  }

  /** The configuration steps of `open` after the flag is raised, in order:
      read the settings, look up the speed, set the input and output speed,
      write the settings, flush. The first step that fails throws its own
      message; success needs every step. */
  function ConfigureOutcome(baudrate: uint32, c: OpenCalls): (r: Outcome)
    ensures r.Fail? ==> r.failure.SerialError?
    ensures c.getAttr != 0 ==> r == Fail(SerialError("Serial open: Failed to read existing port settings."))
    ensures c.getAttr == 0 && baudrate !in SupportedRates
            ==> r == Fail(SerialError("Serial open: Baudrate is not supported."))
    ensures c.getAttr == 0 && baudrate in SupportedRates
            && (c.setInputSpeed(SpeedFor(baudrate).value) != 0 || c.setOutputSpeed(SpeedFor(baudrate).value) != 0)
            ==> r == Fail(SerialError("Serial open: Failed to set port speed."))
    ensures c.getAttr == 0 && baudrate in SupportedRates
            && c.setInputSpeed(SpeedFor(baudrate).value) == 0 && c.setOutputSpeed(SpeedFor(baudrate).value) == 0
            && c.setAttr != 0
            ==> r == Fail(SerialError("Serial open: Failed to set port settings."))
    ensures c.getAttr == 0 && baudrate in SupportedRates
            && c.setInputSpeed(SpeedFor(baudrate).value) == 0 && c.setOutputSpeed(SpeedFor(baudrate).value) == 0
            && c.setAttr == 0 && c.flush(Both) != 0
            ==> r == Fail(SerialError("Serial open: Unable to flush."))
    ensures r == Pass <==>
      c.getAttr == 0 && baudrate in SupportedRates
      && c.setInputSpeed(SpeedFor(baudrate).value) == 0 && c.setOutputSpeed(SpeedFor(baudrate).value) == 0
      && c.setAttr == 0 && c.flush(Both) == 0
  {
    if c.getAttr != 0 then Fail(SerialError("Serial open: Failed to read existing port settings."))
    else match SpeedFor(baudrate)
      case None => Fail(SerialError("Serial open: Baudrate is not supported."))
      case Some(speed) =>
        if c.setInputSpeed(speed) != 0 then Fail(SerialError("Serial open: Failed to set port speed."))
        else if c.setOutputSpeed(speed) != 0 then Fail(SerialError("Serial open: Failed to set port speed."))
        else if c.setAttr != 0 then Fail(SerialError("Serial open: Failed to set port settings."))
        else if c.flush(Both) != 0 then Fail(SerialError("Serial open: Unable to flush."))
        else Pass
  }

  /** `close()`: only the flag changes, and it drops only when both the unlock
      and the close of the descriptor succeed; otherwise `close` throws with
      the port still open. */
  function CloseResult(st: PortState, c: CloseCalls): (res: (Outcome, PortState))
    ensures !st.openFlag ==> res == (Fail(SerialError("Serial close: Serial is already closed.")), st)
    ensures res.1 == st.(openFlag := res.1.openFlag)
    ensures res.1.openFlag <==> st.openFlag && !(st.fd >= 0 && c.unlock >= 0 && c.close >= 0)
    ensures res.0 == Pass <==> st.openFlag && !res.1.openFlag
    ensures st.openFlag && res.0.Fail? ==> res.0 == Fail(SerialError("Serial close: Unable to close serialport."))
    ensures ValidState(st) && st.openFlag ==> (res.0 == Pass <==> c.unlock >= 0 && c.close >= 0)
    ensures ValidState(st) ==> ValidState(res.1)
  {
    if !st.openFlag then (Fail(SerialError("Serial close: Serial is already closed.")), st)
    else if st.fd < 0 || c.unlock < 0 || c.close < 0 then
      (Fail(SerialError("Serial close: Unable to close serialport.")), st)
    else (Pass, st.(openFlag := false))
  }

  /** Opening a closed port whose calls all succeed, at a supported rate, and
      then closing it with calls that succeed, leaves the port closed with
      its configuration as before. */
  lemma OpenThenClose(st: PortState, oc: OpenCalls, cc: CloseCalls)
    requires !st.openFlag && st.baudrate in SupportedRates && OpenCallsSucceed(st, oc)
    requires cc.unlock >= 0 && cc.close >= 0
    ensures OpenResult(st, oc).0 == Pass
    ensures CloseResult(OpenResult(st, oc).1, cc) == (Pass, st.(fd := oc.open(st.port)))
  {
  }

  /** Opening twice in a row: the second `open` throws "already open" and
      changes nothing, whatever its calls would answer. */
  lemma OpenTwice(st: PortState, first: OpenCalls, second: OpenCalls)
    requires !st.openFlag && first.open(st.port) >= 0 && first.lock >= 0
    ensures var st1 := OpenResult(st, first).1;
      OpenResult(st1, second) == (Fail(SerialError("Serial open: Serial is already open.")), st1)
  {
  }

  /** The copy loop of `read`: chunk byte `i` goes to `data[num + i]` while
      `num + i` is still inside the buffer; earlier bytes are kept. */
  method CopyChunk(data: array<byte>, num: nat, chunk: seq<byte>)
    requires num <= data.Length
    modifies data
    ensures data[..num + |Take(chunk, data.Length - num)|] == old(data[..num]) + Take(chunk, data.Length - num)
    ensures data[num + |Take(chunk, data.Length - num)|..] == old(data[num + |Take(chunk, data.Length - num)|..])
  {
    ghost var before := data[..num];
    var i := 0;
    while i < |chunk|
      invariant 0 <= i <= |chunk| && num + i <= data.Length
      invariant data[..num] == before
      invariant forall j :: 0 <= j < i ==> data[num + j] == chunk[j]
      invariant data[num + i..] == old(data[num + i..])
    {
      if i + num < data.Length {
        data[i + num] := chunk[i];
      } else {
        break;
      }
      i := i + 1;
    }
    assert data[..num + i] == before + Take(chunk, data.Length - num);
  }

  /** The polling loop of `read(size)`: fills a `size`-byte buffer in place
      from successive partial reads, each asking for the bytes still
      missing. */
  method PollRounds(size: uint32, wait: Wait, io: PollIo) returns (r: Result<seq<byte>>)
    ensures r == ReadRounds(io, wait, size, [], 0)
  {
    ghost var spec := ReadRounds(io, wait, size, [], 0);
    var data := new byte[size];
    var num: nat := 0;
    var round: nat := 0;  // how many times `select` has been called
    ghost var acc: seq<byte> := [];  // the bytes stored so far
    while num < size
      invariant |acc| == (if num < size then num else size as nat)
      invariant data[..|acc|] == acc
      invariant ReadRounds(io, wait, size, acc, round) == spec
    {
      var status := io.select(round, wait);
      if status == -1 {
        return Err(ReadSelectError);
      }
      if status == 0 {
        return Err(ReadTimeout);
      }
      var reply := io.read(round, size - num);
      var numTemp := ReadCount(reply);
      if numTemp <= 0 {
        return Err(ReadIoError);
      }
      CopyChunk(data, num, reply.chunk);
      acc := acc + Take(reply.chunk, size - num);
      num := num + numTemp;
      round := round + 1;
    }
    assert data[..] == data[..size];
    return Ok(data[..]);
  }

  class Serial {
    var port: string
    var baudrate: uint32
    var timeout: real
    var openFlag: bool
    var fd: int32

    function State(): PortState
      reads this
    {
      PortState(port, baudrate, timeout, openFlag, fd)
    }

    ghost predicate Valid()
      reads this
    {
      ValidState(State())
    }

    /** The C++ constructor leaves the descriptor uninitialised; here it is -1. */
    constructor (port: string, baudrate: uint32, timeout: real)
      ensures Valid()
      ensures State() == PortState(port, baudrate, timeout, false, -1)
    {
      this.port := port;
      this.baudrate := baudrate;
      this.timeout := timeout;
      this.openFlag := false;
      this.fd := -1;
    }

    constructor Default()
      ensures Valid()
      ensures State() == PortState("/dev/ttyUSB0", 9600, 1.0, false, -1)
    {
      port := "/dev/ttyUSB0";
      baudrate := 9600;
      timeout := 1.0;
      openFlag := false;
      fd := -1;
    }

    constructor WithPort(port: string, baudrate: uint32)
      ensures Valid()
      ensures State() == PortState(port, baudrate, 1.0, false, -1)
    {
      this.port := port;
      this.baudrate := baudrate;
      this.timeout := 1.0;
      this.openFlag := false;
      this.fd := -1;
    }

    method Open(c: OpenCalls) returns (r: Outcome)
      modifies this
      ensures (r, State()) == OpenResult(old(State()), c)
      ensures old(Valid()) ==> Valid()
    {
      if openFlag {
        return Fail(SerialError("Serial open: Serial is already open."));
      }
      fd := c.open(port);
      if fd < 0 {
        return Fail(SerialError("Serial open: Unable to open serialport."));
      }
      if c.lock < 0 {
        return Fail(SerialError("Serial open: Serial port is already locked by another process."));
      }
      openFlag := true;
      if c.getAttr != 0 {
        return Fail(SerialError("Serial open: Failed to read existing port settings."));
      }
      var speed := SpeedFor(baudrate);
      if speed.None? {
        return Fail(SerialError("Serial open: Baudrate is not supported."));
      }
      if c.setInputSpeed(speed.value) != 0 {
        return Fail(SerialError("Serial open: Failed to set port speed."));
      }
      if c.setOutputSpeed(speed.value) != 0 {
        return Fail(SerialError("Serial open: Failed to set port speed."));
      }
      if c.setAttr != 0 {
        return Fail(SerialError("Serial open: Failed to set port settings."));
      }
      // The 10 ms settle delay before the flush is not modelled.
      if c.flush(Both) != 0 {
        return Fail(SerialError("Serial open: Unable to flush."));
      }
      return Pass;
    }

    method Close(c: CloseCalls) returns (r: Outcome)
      modifies this
      ensures (r, State()) == CloseResult(old(State()), c)
      ensures old(Valid()) ==> Valid()
      ensures old(Valid()) && old(openFlag) ==> (r == Pass <==> c.unlock >= 0 && c.close >= 0)
    {
      if !openFlag {
        return Fail(SerialError("Serial close: Serial is already closed."));
      }
      if fd < 0 || c.unlock < 0 || c.close < 0 {
        return Fail(SerialError("Serial close: Unable to close serialport."));
      }
      openFlag := false;
      return Pass;
    }

    /** Both `write` overloads (std::string and std::vector<uint8_t>): one
        `::write` of all the bytes; its count is returned as it is, so a
        partial write is reported, not retried. */
    method Write(data: seq<byte>, write: seq<byte> -> int32) returns (r: Result<uint32>)
      ensures !openFlag ==> r == Err(ClosedError("write"))
      ensures openFlag ==> (r.Ok? <==> write(data) >= 0)
      ensures r.Ok? ==> r.value == write(data)
      ensures openFlag && r.Err? ==> r == Err(SerialError("Serial write: Unable to write data on serialport."))
    {
      if !openFlag {
        return Err(ClosedError("write"));
      }
      var num := write(data);
      if num < 0 {
        return Err(SerialError("Serial write: Unable to write data on serialport."));
      }
      return Ok(num);
    }

    /** `read(size)`: the closed-port check and the switch to raw mode, then
        the polling loop. */
    method Read(size: uint32, io: PollIo) returns (r: Result<seq<byte>>)
      ensures r == ReadResult(openFlag, timeout, size, io)
    {
      if !openFlag {
        return Err(ClosedError("read"));
      }
      if io.getAttr != 0 {
        return Err(ReadGetAttrError);
      }
      if io.setAttr != 0 {
        return Err(ReadSetAttrError);
      }
      r := PollRounds(size, WaitFor(timeout), io);
    }

    /** `readline()`: one read into the fixed line buffer, which is then
        NUL-terminated and taken as a C string. */
    method Readline(io: PollIo) returns (r: Result<seq<byte>>)
      ensures r == ReadlineResult(openFlag, timeout, io)
    {
      if !openFlag {
        return Err(ClosedError("readline"));
      }
      if io.getAttr != 0 {
        return Err(LineGetAttrError);
      }
      if io.setAttr != 0 {
        return Err(LineSetAttrError);
      }
      var status := io.select(0, WaitFor(timeout));
      if status == -1 {
        return Err(LineSelectError);
      }
      if status == 0 {
        return Err(LineTimeout);
      }
      var reply := io.read(0, LineBufferSize);
      var num := ReadCount(reply);
      if num <= 0 {
        return Err(LineIoError);
      }
      if num >= LineBufferSize + 1 {
        return Err(LineOverflow);
      }
      var buffer := new byte[LineBufferSize + 1];
      // the bytes read(2) stored at the start of the buffer
      forall j | 0 <= j < num {
        buffer[j] := reply.chunk[j];
      }
      buffer[num] := 0;
      var len := 0;
      while buffer[len] != 0
        invariant 0 <= len <= num && buffer[num] == 0
        invariant forall j :: 0 <= j < len ==> buffer[j] != 0
        decreases num - len
      {
        len := len + 1;
      }
      assert buffer[..num] == reply.chunk;
      CutAtNulUnique(reply.chunk, buffer[..len]);
      return Ok(buffer[..len]);
    }

    /** `reset_input_buffer()`: discards the unread input with TCIFLUSH. */
    method ResetInputBuffer(flush: Queue -> int32) returns (r: Outcome)
      ensures !openFlag ==> r == Fail(ClosedError("reset input buffer"))
      ensures openFlag ==> (r == Pass <==> flush(Input) == 0)
      ensures openFlag && r.Fail? ==> r == Fail(SerialError("Serial reset input buffer: Unable to reset buffer."))
    {
      if !openFlag {
        return Fail(ClosedError("reset input buffer"));
      }
      if flush(Input) != 0 {
        return Fail(SerialError("Serial reset input buffer: Unable to reset buffer."));
      }
      return Pass;
    }

    /** `reset_output_buffer()`: discards the unsent output with TCOFLUSH. */
    method ResetOutputBuffer(flush: Queue -> int32) returns (r: Outcome)
      ensures !openFlag ==> r == Fail(ClosedError("reset output buffer"))
      ensures openFlag ==> (r == Pass <==> flush(Output) == 0)
      ensures openFlag && r.Fail? ==> r == Fail(SerialError("Serial reset output buffer: Unable to reset buffer."))
    {
      if !openFlag {
        return Fail(ClosedError("reset output buffer"));
      }
      if flush(Output) != 0 {
        return Fail(SerialError("Serial reset output buffer: Unable to reset buffer."));
      }
      return Pass;
    }

    /** The `rts(bool)` and `dtr(bool)` setters: one TIOCMBIS (state true) or
        TIOCMBIC (state false) request with the line's bit. */
    method SetLine(line: Line, state: bool, ioctl: Request -> int32) returns (r: Outcome)
      requires line == Rts || line == Dtr
      ensures !openFlag ==> r == Fail(ClosedError(Name(line)))
      ensures openFlag ==> (r == Pass <==> ioctl(RequestFor(ConventionalBit(line), state)) == 0)
      ensures openFlag && r.Fail? ==> r == Fail(SerialError(WriteFailedMsg(line)))
    {
      if !openFlag {
        return Fail(ClosedError(Name(line)));
      }
      if ioctl(RequestFor(ConventionalBit(line), state)) != 0 {
        return Fail(SerialError(WriteFailedMsg(line)));
      }
      return Pass;
    }

    method SetRts(state: bool, ioctl: Request -> int32) returns (r: Outcome)
      ensures !openFlag ==> r == Fail(SerialError("Serial RTS: Serial is closed."))
      ensures openFlag ==> (r == Pass <==> ioctl(if state then SetBits(TIOCM_RTS) else ClearBits(TIOCM_RTS)) == 0)
      ensures openFlag && r.Fail? ==> r == Fail(SerialError("Serial RTS: Unable to write RTS."))
    {
      r := SetLine(Rts, state, ioctl);
    }

    method SetDtr(state: bool, ioctl: Request -> int32) returns (r: Outcome)
      ensures !openFlag ==> r == Fail(SerialError("Serial DTR: Serial is closed."))
      ensures openFlag ==> (r == Pass <==> ioctl(if state then SetBits(TIOCM_DTR) else ClearBits(TIOCM_DTR)) == 0)
      ensures openFlag && r.Fail? ==> r == Fail(SerialError("Serial DTR: Unable to write DTR."))
    {
      r := SetLine(Dtr, state, ioctl);
    }

    /** The `rts()`, `dtr()`, `cts()` and `dsr()` getters: one TIOCMGET, whose
        status word `word` is then tested with the line's bit. */
    method QueryLine(line: Line, ret: int32, word: bv32) returns (r: Result<bool>)
      ensures !openFlag ==> r == Err(ClosedError(Name(line)))
      ensures openFlag && ret != 0 ==> r == Err(SerialError(ReadFailedMsg(line)))
      ensures openFlag && ret == 0 ==> r == Ok(BitSet(word, TestedBit(line)))
    {
      if !openFlag {
        return Err(ClosedError(Name(line)));
      }
      if ret != 0 {
        return Err(SerialError(ReadFailedMsg(line)));
      }
      return Ok(BitSet(word, TestedBit(line)));
    }

    method GetRts(ret: int32, word: bv32) returns (r: Result<bool>)
      ensures !openFlag ==> r == Err(SerialError("Serial RTS: Serial is closed."))
      ensures openFlag && ret != 0 ==> r == Err(SerialError("Serial RTS: Unable to read RTS."))
      ensures openFlag && ret == 0 ==> r == Ok(word & 0x004 != 0)
    {
      r := QueryLine(Rts, ret, word);
    }

    method GetDtr(ret: int32, word: bv32) returns (r: Result<bool>)
      ensures !openFlag ==> r == Err(SerialError("Serial DTR: Serial is closed."))
      ensures openFlag && ret != 0 ==> r == Err(SerialError("Serial DTR: Unable to read DTR."))
      ensures openFlag && ret == 0 ==> r == Ok(word & 0x002 != 0)
    {
      r := QueryLine(Dtr, ret, word);
    }

    method GetCts(ret: int32, word: bv32) returns (r: Result<bool>)
      ensures !openFlag ==> r == Err(SerialError("Serial CTS: Serial is closed."))
      ensures openFlag && ret != 0 ==> r == Err(SerialError("Serial CTS: Unable to read CTS."))
      ensures openFlag && ret == 0 ==> r == Ok(word & 0x020 != 0)
    {
      r := QueryLine(Cts, ret, word);
    }

    /** Tests the line-enable bit (0x001), so the DSR bit (0x100) itself
        never affects the answer. */
    method GetDsr(ret: int32, word: bv32) returns (r: Result<bool>)
      ensures !openFlag ==> r == Err(SerialError("Serial DSR: Serial is closed."))
      ensures openFlag && ret != 0 ==> r == Err(SerialError("Serial DSR: Unable to read DSR."))
      ensures openFlag && ret == 0 ==> r == Ok(word & 0x001 != 0)
      ensures openFlag && ret == 0 ==> r == Ok((word ^ TIOCM_DSR) & TIOCM_LE != 0)
    {
      r := QueryLine(Dsr, ret, word);
    }

    function IsOpen(): (b: bool)
      reads this
      ensures b == State().openFlag
    {
      openFlag
    }

    function Port(): (p: string)
      reads this
      ensures p == State().port
    {
      port
    }

    function Baudrate(): (b: uint32)
      reads this
      ensures b == State().baudrate
    {
      baudrate
    }

    function Timeout(): (t: real)
      reads this
      ensures t == State().timeout
    {
      timeout
    }

    /** The setters store the new value and nothing else: an open descriptor
        keeps the path, speed and flag it was opened with. */
    method SetPort(newPort: string)
      modifies this
      ensures State() == old(State()).(port := newPort)
    {
      port := newPort;
    }

    method SetBaudrate(newBaudrate: uint32)
      modifies this
      ensures State() == old(State()).(baudrate := newBaudrate)
    {
      baudrate := newBaudrate;
    }

    method SetTimeout(newTimeout: real)
      modifies this
      ensures State() == old(State()).(timeout := newTimeout)
    {
      timeout := newTimeout;
    }

    /** The destructor: `close`, with whatever it throws swallowed. */
    method Dispose(c: CloseCalls)
      modifies this
      ensures State() == CloseResult(old(State()), c).1
    {
      var _ := Close(c);
    }
  }
}
