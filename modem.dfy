/** The modem-control status word (`TIOCMGET`) and the bit-set / bit-clear
    requests (`TIOCMBIS` / `TIOCMBIC`) the control-line operations issue.
    Bit values are those of Linux's <asm-generic/termios.h>. */
module Modem {

  const TIOCM_LE: bv32 := 0x001
  const TIOCM_DTR: bv32 := 0x002
  const TIOCM_RTS: bv32 := 0x004
  const TIOCM_CTS: bv32 := 0x020
  const TIOCM_DSR: bv32 := 0x100

  /** The four control lines the port exposes. */
  datatype Line = Rts | Dtr | Cts | Dsr

  /** The name the line's error messages use. */
  function Name(line: Line): string
  {
    match line
    case Rts => "RTS"
    case Dtr => "DTR"
    case Cts => "CTS"
    case Dsr => "DSR"
  }

  /** The message a failed TIOCMBIS / TIOCMBIC request throws; only RTS and
      DTR have setters. */
  function WriteFailedMsg(line: Line): string
    requires line == Rts || line == Dtr
  {
    if line == Rts then "Serial RTS: Unable to write RTS." else "Serial DTR: Unable to write DTR."
  }

  /** The message a failed TIOCMGET throws. */
  function ReadFailedMsg(line: Line): string
  {
    match line
    case Rts => "Serial RTS: Unable to read RTS."
    case Dtr => "Serial DTR: Unable to read DTR."
    case Cts => "Serial CTS: Unable to read CTS."
    case Dsr => "Serial DSR: Unable to read DSR."
  }

  /** The bit the line's getter tests. The DSR getter tests the line-enable
      bit TIOCM_LE, not TIOCM_DSR. */
  function TestedBit(line: Line): (mask: bv32)
    ensures mask != 0 && mask & (mask - 1) == 0
    ensures line != Dsr ==> mask == ConventionalBit(line)
    ensures line == Dsr ==> mask == TIOCM_LE && mask != ConventionalBit(line)
  {
    match line
    case Rts => TIOCM_RTS
    case Dtr => TIOCM_DTR
    case Cts => TIOCM_CTS
    case Dsr => TIOCM_LE
  }

  /** The bit named after the line. */
  function ConventionalBit(line: Line): bv32
  {
    match line
    case Rts => TIOCM_RTS
    case Dtr => TIOCM_DTR
    case Cts => TIOCM_CTS
    case Dsr => TIOCM_DSR
  }

  /** `bit_mask & mask` taken as a truth value. */
  predicate BitSet(word: bv32, mask: bv32)
  {
    word & mask != 0
  }

  /** An `ioctl` modem request: TIOCMBIS sets, TIOCMBIC clears the mask. */
  datatype Request = SetBits(mask: bv32) | ClearBits(mask: bv32)

  /** The request a setter issues for `state`. */
  function RequestFor(mask: bv32, state: bool): (req: Request)
    ensures req.mask == mask && (req.SetBits? <==> state)
  {
    if state then SetBits(mask) else ClearBits(mask)
  }

  /** Or-ing a mask in sets its bits and keeps every other bit. */
  lemma SetBitsEffect(word: bv32, mask: bv32)
    ensures (word | mask) & mask == mask
    ensures (word | mask) & !mask == word & !mask
  {
  }

  /** And-ing with the complement clears the mask's bits and keeps every
      other bit. */
  lemma ClearBitsEffect(word: bv32, mask: bv32)
    ensures (word & !mask) & mask == 0
    ensures (word & !mask) & !mask == word & !mask
  {
  }

  /** What the driver does with a request: the masked bits are set (or
      cleared); `ApplyKeepsOtherBits` says every other bit keeps its value. */
  function Apply(word: bv32, req: Request): (w: bv32)
    ensures req.mask != 0 ==> (BitSet(w, req.mask) <==> req.SetBits?)
  {
    match req
    case SetBits(mask) => SetBitsEffect(word, mask); word | mask
    case ClearBits(mask) => ClearBitsEffect(word, mask); word & !mask
  }

  /** A request leaves every bit outside its mask as it was. */
  lemma ApplyKeepsOtherBits(word: bv32, req: Request)
    ensures Apply(word, req) & !req.mask == word & !req.mask
  {
    match req
    case SetBits(mask) => SetBitsEffect(word, mask);
    case ClearBits(mask) => ClearBitsEffect(word, mask);
  }

  /** A setter, which writes the bit named after its line, followed by the
      getter of the same line reads back the state written, for RTS and DTR;
      and the bit every other getter tests does not move. */
  lemma SetThenGet(word: bv32, line: Line, state: bool, other: Line)
    requires line == Rts || line == Dtr
    requires other != line
    ensures BitSet(Apply(word, RequestFor(ConventionalBit(line), state)), TestedBit(line)) == state
    ensures BitSet(Apply(word, RequestFor(ConventionalBit(line), state)), TestedBit(other))
            == BitSet(word, TestedBit(other))
  {
    assert ConventionalBit(line) == TestedBit(line);
    var w := Apply(word, RequestFor(ConventionalBit(line), state));
    ApplyKeepsOtherBits(word, RequestFor(ConventionalBit(line), state));
    match other
    case Rts =>
      assert w & TIOCM_RTS == (w & !TIOCM_DTR) & TIOCM_RTS;
      assert word & TIOCM_RTS == (word & !TIOCM_DTR) & TIOCM_RTS;
    case Dtr =>
      assert w & TIOCM_DTR == (w & !TIOCM_RTS) & TIOCM_DTR;
      assert word & TIOCM_DTR == (word & !TIOCM_RTS) & TIOCM_DTR;
    case Cts =>
      assert w & TIOCM_CTS == (w & !TestedBit(line)) & TIOCM_CTS;
      assert word & TIOCM_CTS == (word & !TestedBit(line)) & TIOCM_CTS;
    case Dsr =>
      assert w & TIOCM_LE == (w & !TestedBit(line)) & TIOCM_LE;
      assert word & TIOCM_LE == (word & !TestedBit(line)) & TIOCM_LE;
  }
}
