/** The fixed table from a stored baud rate to the termios speed token that
    `cfsetispeed`/`cfsetospeed` are given. Only six rates are supported. */
module Baud {
  import opened OsCalls
  import opened Outcomes

  /** The termios speed tokens B9600 ... B1000000. */
  datatype Speed = B9600 | B19200 | B38400 | B57600 | B115200 | B1000000

  /** The rates the port accepts. */
  const SupportedRates: set<uint32> := {9600, 19200, 38400, 57600, 115200, 1000000}

  /** The baud-rate switch of `open`: a token for a supported rate, None
      (which `open` turns into "Baudrate is not supported") for any other. */
  function SpeedFor(rate: uint32): (s: Option<Speed>)
    ensures s.Some? <==> rate in SupportedRates
  {
    match rate
    case 9600 => Some(B9600)
    case 19200 => Some(B19200)
    case 38400 => Some(B38400)
    case 57600 => Some(B57600)
    case 115200 => Some(B115200)
    case 1000000 => Some(B1000000)
    case _ => None
  }

  /** The rate in bits per second a speed token stands for. */
  function RateOf(s: Speed): (rate: uint32)
    ensures rate in SupportedRates
    ensures SpeedFor(rate) == Some(s)
  {
    match s
    case B9600 => 9600
    case B19200 => 19200
    case B38400 => 38400
    case B57600 => 57600
    case B115200 => 115200
    case B1000000 => 1000000
  }

  /** The token chosen for a rate stands for that very rate, so distinct
      rates never share a token. */
  lemma SpeedForRoundTrip(rate: uint32, s: Speed)
    requires SpeedFor(rate) == Some(s)
    ensures RateOf(s) == rate
  {
  }
}
