/**
 * The SPI link between the boot ROM and the SD card.
 *
 * The memory-mapped SPI controller (transmit FIFO, receive FIFO, chip-select
 * mode register) is replaced by an explicit byte stream: `card` holds the
 * bytes the card clocks back, one per byte transmitted; `sent` records
 * every byte transmitted, and `csLog` every chip-select mode write with the
 * number of bytes exchanged before it. A card that has stopped driving its
 * data line reads as the idle level 0xFF, so a received byte past the end
 * of `card` is 0xFF.
 */
module Spi {

  /** The byte received at position `i` of the card's stream. */
  function At(s: seq<bv8>, i: nat): bv8
  {
    if i < |s| then s[i] else 0xFF
  }

  /** `n` idle bytes (0xFF), as sent by `sd_dummy`. */
  function Idle(n: nat): seq<bv8>
  {
    seq(n, _ => 0xFF)
  }

  /** Chip-select modes of the controller's CSMODE register. */
  datatype CsMode = CsAuto | CsHold | CsOff

  /** A write of CSMODE, made after `at` bytes had been exchanged. */
  datatype CsWrite = CsWrite(at: nat, mode: CsMode)

  /**
   * The whole observable state of the link: the card's stream, every byte
   * transmitted so far (one byte of the stream comes back for each), every
   * chip-select mode write in order, and the current mode.
   */
  datatype Link = Link(card: seq<bv8>, sent: seq<bv8>, csLog: seq<CsWrite>, cs: CsMode)

  /** How many bytes have been exchanged: the position of the next byte of the card's stream. */
  function Pos(l: Link): nat
  {
    |l.sent|
  }

  /** `spi_xfer(d)`: transmit `d`, return the byte clocked in at the same time. */
  function XferRun(l: Link, d: bv8): (bv8, Link)
  {
    (At(l.card, Pos(l)), l.(sent := l.sent + [d]))
  }

  /** `sd_dummy()`: exchange one idle byte. */
  function DummyRun(l: Link): (bv8, Link)
  {
    XferRun(l, 0xFF)
  }

  /** A write of the CSMODE register. */
  function CsRun(l: Link, m: CsMode): Link
  {
    l.(csLog := l.csLog + [CsWrite(Pos(l), m)], cs := m)
  }

  /** The link after transmitting every byte of `bs`, whatever comes back. */
  function SendRun(l: Link, bs: seq<bv8>): Link
  {
    l.(sent := l.sent + bs)
  }

  lemma SendNothing(l: Link)
    ensures SendRun(l, []) == l
  {
    assert l.sent + [] == l.sent;
  }

  /** Transmitting one more byte after `bs` reads the next byte of the stream. */
  lemma XferAfter(l: Link, bs: seq<bv8>, d: bv8)
    ensures XferRun(SendRun(l, bs), d) == (At(l.card, Pos(l) + |bs|), SendRun(l, bs + [d]))
  {
    assert (l.sent + bs) + [d] == l.sent + (bs + [d]);
  }

  /** One more `sd_dummy` after `n` of them reads the byte at the next position. */
  lemma DummyAfterIdle(l: Link, n: nat)
    ensures DummyRun(SendRun(l, Idle(n))) == (At(l.card, Pos(l) + n), SendRun(l, Idle(n + 1)))
  {
    XferAfter(l, Idle(n), 0xFF);
    assert Idle(n) + [0xFF] == Idle(n + 1);
  }

  /** Idle runs concatenate. */
  lemma IdleAppend(a: nat, b: nat)
    ensures Idle(a) + Idle(b) == Idle(a + b)
  {
    assert forall k :: 0 <= k < a + b ==> (Idle(a) + Idle(b))[k] == 0xFF;
  }

  lemma SendSend(l: Link, a: seq<bv8>, b: seq<bv8>)
    ensures SendRun(SendRun(l, a), b) == SendRun(l, a + b)
  {
    assert (l.sent + a) + b == l.sent + (a + b);
  }

  /** Idle bytes sent in two runs are one run. */
  lemma MoreIdle(l: Link, a: nat, b: nat, n: nat)
    requires n == a + b
    ensures SendRun(SendRun(l, Idle(a)), Idle(b)) == SendRun(l, Idle(n))
  {
    SendSend(l, Idle(a), Idle(b));
    IdleAppend(a, b);
  }

  /**
   * The SPI controller. Its fields are exactly the state `Link`
   * describes; every method states its effect through the functions above.
   */
  class Bus {
    const card: seq<bv8>
    var sent: seq<bv8>
    var csLog: seq<CsWrite>
    var csmode: CsMode

    function State(): Link
      reads this
    {
      Link(card, sent, csLog, csmode)
    }

    /** A controller out of reset (CSMODE is AUTO) facing a card that will send `card`. */
    constructor (card: seq<bv8>)
      ensures State() == Link(card, [], [], CsAuto)
    {
      this.card := card;
      sent := [];
      csLog := [];
      csmode := CsAuto;
    }

    /**
     * `spi_xfer`: the spin on a negative RXFIFO read is the wait for the
     * byte clocked in with `d`; here that byte is the next one of the stream.
     */
    method Xfer(d: bv8) returns (r: bv8)
      modifies this
      ensures (r, State()) == XferRun(old(State()), d)
    {
      r := if |sent| < |card| then card[|sent|] else 0xFF;
      sent := sent + [d];
    }

    /** `sd_dummy` */
    method Dummy() returns (r: bv8)
      modifies this
      ensures (r, State()) == DummyRun(old(State()))
    {
      r := Xfer(0xFF);
    }

    /** A write of SPI_REG_CSMODE. */
    method SetCsMode(m: CsMode)
      modifies this
      ensures State() == CsRun(old(State()), m)
    {
      csLog := csLog + [CsWrite(|sent|, m)];
      csmode := m;
    }
  }
}
